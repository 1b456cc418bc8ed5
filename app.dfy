/**
 * The API server's own logic: the JSON submission checks, the chunked
 * upload route, start-up and the background dispatcher that feeds queued
 * jobs to the controller. Routing and threads are not modelled: each
 * handler is one atomic call, and a handler that would start a dispatcher
 * thread says so in its result.
 */
module Dispatch {
  import opened Wrappers
  import opened Strings
  import opened Json
  import opened Jobs
  import opened Lists
  import opened Queue
  import opened Controller
  import opened ChunkStore
  import Config

  /** The replies of the modelled handlers, with their HTTP codes. */
  datatype Reply =
    | Created(jobId: JobId, position: int)                          // 201
    | Assembled(jobId: JobId, position: int, fileSize: nat)        // 201
    | ChunkReceived(chunk: int, totalChunks: int, uploadedChunks: nat) // 200
    | BadRequest(error: string)                                    // 400
    | TooLarge(error: string)                                      // 413
    | ServerError(error: string)                                   // 500

  datatype AppState = AppIdle | AppPlotting | AppError

  /** The global `app_status` dictionary. */
  datatype AppStatus = AppStatus(status: AppState, currentJob: Option<JobId>, errorMessage: Option<string>, lastUpdated: Stamp)

  const MaxJsonSvg: nat := 100 * 1024 * 1024
  const NoDataMessage := "No data provided"
  const TooLargeMessage := "SVG content too large for JSON submission. Use multipart upload instead."
  const NeedSvgMessage := "Either svg_content or svg_file must be provided"
  const BadStartMessage := "start_mm must be a valid number"
  const NoFileIdMessage := "file_id required"
  const NoChunkMessage := "No chunk data provided"
  const InitFailedPrefix := "Plotter initialization failed: "
  /** Stand for the texts of the exceptions Python raises in these places. */
  const NoLenMessage := "object has no len()"
  const PriorityMessage := "priority is not comparable with an integer"
  const IntParseMessage := "invalid literal for int()"
  const JsonParseMessage := "Expecting value"

  // ---------------------------------------------------------------------
  // JSON submission (`submit_plot_json`).

  /** `len(v)`, or `None` where Python raises. */
  function PyLen(v: Json): Option<nat> {
    match v
    case JStr(s) => Some(|s|)
    case JList(items) => Some(|items|)
    case JObj(fields) => Some(|fields|)
    case _ => None
  }

  /** An integer priority: `bool` counts as `int`; other values are refused (see README). */
  function PriorityValue(p: Json): Option<int> {
    match p
    case JInt(i) => Some(i)
    case JBool(b) => Some(if b then 1 else 0)
    case _ => None
  }

  /** The checks of `submit_plot_json` in order, and the `job_data` it builds when they pass. */
  function JsonSubmission(data: Json, now: Stamp): Result<JobData, Reply> {
    if !Truthy(data) then Err(BadRequest(NoDataMessage))
    else if !data.JObj? then Err(ServerError(NotDictMessage))
    else
      var d := data.fields;
      var svg := Get(d, "svg_content", JStr(""));
      if Truthy(svg) && PyLen(svg).None? then Err(ServerError(NoLenMessage))
      else if Truthy(svg) && PyLen(svg).value > MaxJsonSvg then Err(TooLarge(TooLargeMessage))
      else if "svg_content" !in d && "svg_file" !in d then Err(BadRequest(NeedSvgMessage))
      else
        var startMm := Get(d, "start_mm", JNull);
        if !startMm.JNull? && !PyFloatOk(startMm) then Err(BadRequest(BadStartMessage))
        else
          var p := PriorityValue(Get(d, "priority", JInt(1)));
          if p.None? then Err(ServerError(PriorityMessage))
          else Ok(JobData(
            Some(Get(d, "name", JStr(DefaultJobName(now)))),
            Some(Get(d, "description", JStr(""))),
            Some(Get(d, "svg_content", JNull)),
            Some(Get(d, "svg_file", JNull)),
            Some(Get(d, "config", JObj(map[]))),
            p,
            Some(now),
            if startMm.JNull? then None else Some(startMm)))
  }

  /**
   * A non-empty submission whose `svg_content` is longer than 100 MiB gets
   * 413. One that gets past the size check is refused with 400 exactly when
   * it names neither `svg_content` nor `svg_file`, or when it carries a
   * `start_mm` that is not a number; an accepted one keeps its SVG fields.
   */
  lemma SubmissionChecks(d: Object, now: Stamp)
    requires d != map[]
    ensures var svg := Get(d, "svg_content", JStr(""));
            Truthy(svg) && PyLen(svg).Some? && PyLen(svg).value > MaxJsonSvg ==>
              JsonSubmission(JObj(d), now) == Err(TooLarge(TooLargeMessage))
    ensures var svg := Get(d, "svg_content", JStr(""));
            var r := JsonSubmission(JObj(d), now);
            (Truthy(svg) ==> PyLen(svg).Some? && PyLen(svg).value <= MaxJsonSvg) ==>
            && (r == Err(BadRequest(NeedSvgMessage)) <==> "svg_content" !in d && "svg_file" !in d)
            && (("svg_content" in d || "svg_file" in d) ==>
                  (r == Err(BadRequest(BadStartMessage)) <==>
                     "start_mm" in d && !d["start_mm"].JNull? && !PyFloatOk(d["start_mm"])))
            && (r.Ok? ==> r.value.svgContent == Some(Get(d, "svg_content", JNull))
                          && r.value.svgFile == Some(Get(d, "svg_file", JNull))
                          && r.value.priority.Some?)
  {
  }

  /**
   * The corrected order of `add_job`: a submission that passes the earlier
   * checks is refused exactly when its priority is not an integer, and the
   * refusal comes from `JsonSubmission`, before anything reaches the queue,
   * so `SubmitPlotJson` leaves the queue and its invariant as they were.
   */
  lemma PriorityRefusedFirst(d: Object, now: Stamp)
    requires d != map[] && ("svg_content" in d || "svg_file" in d)
    requires var svg := Get(d, "svg_content", JStr(""));
             Truthy(svg) ==> PyLen(svg).Some? && PyLen(svg).value <= MaxJsonSvg
    requires var startMm := Get(d, "start_mm", JNull);
             startMm.JNull? || PyFloatOk(startMm)
    ensures var p := Get(d, "priority", JInt(1));
            && (JsonSubmission(JObj(d), now) == Err(ServerError(PriorityMessage)) <==> PriorityValue(p).None?)
            && (JsonSubmission(JObj(d), now).Ok? <==> p.JInt? || p.JBool?)
  {
  }

  // ---------------------------------------------------------------------
  // Chunked upload (`upload_plot_chunk`).

  /** A form field holding JSON text. */
  datatype JsonText = Parsed(value: Json) | Malformed

  /** The form fields of a chunk request; `None` is an absent field. */
  datatype ChunkForm = ChunkForm(
    chunk: Option<string>,
    totalChunks: Option<string>,
    fileId: Option<string>,
    filename: Option<string>,
    config: Option<JsonText>,
    priority: Option<string>,
    name: Option<string>,
    description: Option<string>)

  /** `int(form.get(key, default))`; `None` where `int` raises. */
  function FormInt(v: Option<string>, default: int): Option<int> {
    if v.None? then Some(default) else ParseInt(v.value)
  }

  /** `json.loads(form.get('config', '{}'))` */
  function FormJson(v: Option<JsonText>): Option<Json> {
    match v
    case None => Some(JObj(map[]))
    case Some(Parsed(j)) => Some(j)
    case Some(Malformed) => None
  }

  /** `f"{timestamp}_{secure_name}"` in the upload folder (`secure_filename` is not modelled). */
  function FinalPath(now: Stamp, filename: string): string {
    NatToString(now) + "_" + filename
  }

  /** The scratch directory of an upload id, empty when it does not exist yet. */
  function ScratchOf(scratch: map<string, Dir>, fileId: string): Dir {
    if fileId in scratch then scratch[fileId] else map[]
  }

  /** The `job_data` of an assembled upload. */
  function ChunkJobData(form: ChunkForm, path: string, overrides: Json, priority: int, now: Stamp): JobData {
    JobData(
      Some(JStr(OrElse(form.name, "ChunkedUpload_" + NatToString(now)))),
      Some(JStr(OrElse(form.description, ""))),
      None,
      Some(JStr(path)),
      Some(overrides),
      Some(priority),
      Some(now),
      None)
  }

  /** A job recorded as the controller's result says: completed with a success, or failed with a message. */
  predicate Finished(after: Job) {
    || (after.status == Completed && after.result.Some? && after.result.value.Succeeded? && after.progress == 100)
    || (after.status == Failed && after.errorMessage.Some?)
  }

  /** A job seen by a dispatcher run: untouched unless it was queued, and then untouched or finished. */
  predicate Dispatched(before: Job, after: Job) {
    if before.status != Queued then after == before
    else after == before || Finished(after)
  }

  /** Two dispatcher runs in a row are seen as one: a job finished by the first stays as it is. */
  lemma DispatchedTrans(a: Job, b: Job, c: Job)
    requires Dispatched(a, b) && Dispatched(b, c)
    ensures Dispatched(a, c)
  {
  }

  /** Where the validation and storing part of a chunk request ends. */
  datatype ChunkStep =
    | Refused(reply: Reply, scratch: map<string, Dir>)
    | Stored(fileId: string, chunk: int, total: int, dir: Dir)

  /**
   * The request up to the received-count test: the `int` conversions, the
   * `file_id` check, the scratch directory created before the `chunk_data`
   * check, and the chunk written under `chunk_{n}`.
   */
  function ChunkRequest(form: ChunkForm, chunkData: Option<Bytes>, scratch: map<string, Dir>): ChunkStep {
    var n := FormInt(form.chunk, 0);
    var total := FormInt(form.totalChunks, 1);
    var fileId := OrElse(form.fileId, "");
    if n.None? || total.None? then Refused(ServerError(IntParseMessage), scratch)
    else if fileId == "" then Refused(BadRequest(NoFileIdMessage), scratch)
    else if chunkData.None? then Refused(BadRequest(NoChunkMessage), scratch[fileId := ScratchOf(scratch, fileId)])
    else Stored(fileId, n.value, total.value, StoreChunk(ScratchOf(scratch, fileId), "chunk_", n.value, chunkData.value))
  }

  /**
   * Requests without `file_id` or without `chunk_data` are refused with 400
   * (the second after the scratch directory exists); a stored chunk
   * overwrites its own index only, and a re-sent index leaves the count alone.
   */
  lemma ChunkRequestCases(form: ChunkForm, chunkData: Option<Bytes>, scratch: map<string, Dir>)
    requires FormInt(form.chunk, 0).Some? && FormInt(form.totalChunks, 1).Some?
    ensures var step := ChunkRequest(form, chunkData, scratch);
            var fileId := OrElse(form.fileId, "");
            && (fileId == "" ==> step == Refused(BadRequest(NoFileIdMessage), scratch))
            && (fileId != "" && chunkData.None? ==>
                  step.Refused? && step.reply == BadRequest(NoChunkMessage) && fileId in step.scratch)
            && (fileId != "" && chunkData.Some? ==>
                  && step.Stored? && step.fileId == fileId && step.chunk == FormInt(form.chunk, 0).value
                  && step.dir[ChunkName("chunk_", step.chunk)] == chunkData.value
                  && step.dir.Keys == ScratchOf(scratch, fileId).Keys + {ChunkName("chunk_", step.chunk)}
                  && (ChunkName("chunk_", step.chunk) in ScratchOf(scratch, fileId) ==>
                        ReceivedCount(step.dir, "chunk_") == ReceivedCount(ScratchOf(scratch, fileId), "chunk_")))
  {
    var fileId := OrElse(form.fileId, "");
    if fileId != "" && chunkData.Some? {
      var old_ := ScratchOf(scratch, fileId);
      var step := ChunkRequest(form, chunkData, scratch);
      if ChunkName("chunk_", step.chunk) in old_ {
        assert NamesWithPrefix(step.dir, "chunk_") == NamesWithPrefix(old_, "chunk_");
      }
    }
  }

  datatype DispatchEnd = Drained | Stalled

  /** Taking a queued job out of the queued set shrinks it by that job. */
  lemma LeaveQueued(jobs: map<JobId, Job>, id: JobId, job: Job)
    requires id in jobs && jobs[id].status == Queued && job.status != Queued
    ensures WithStatus(jobs[id := job], Queued) == WithStatus(jobs, Queued) - {id}
    ensures Count(jobs[id := job], Queued) < Count(jobs, Queued)
  {
    assert id in WithStatus(jobs, Queued);
  }

  /** Changing a job that is not queued into one that is not queued keeps the queued set. */
  lemma StayOutOfQueued(jobs: map<JobId, Job>, id: JobId, job: Job)
    requires id in jobs && jobs[id].status != Queued && job.status != Queued
    ensures WithStatus(jobs[id := job], Queued) == WithStatus(jobs, Queued)
  {
  }

  /** With no queued job in the list, a consistent queue has no queued job at all. */
  lemma NoQueuedLeft(jobs: map<JobId, Job>, queue: seq<JobId>, n: JobId)
    requires Consistent(jobs, queue, n)
    requires FirstQueued(queue, jobs).None?
    ensures Count(jobs, Queued) == 0
  {
    forall id | id in jobs && id in queue ensures jobs[id].status != Queued {
      var k := IndexOf(queue, id);
      assert !IsQueuedAt(queue, jobs, k);
    }
    assert WithStatus(jobs, Queued) == {};
  }

  class Server {
    const queue: JobQueue
    const controller: PlotterController
    const configs: Config.ConfigManager
    var appStatus: AppStatus
    /** `<tmp>/nextdraw_chunks/<file_id>` for every upload id. */
    var scratch: map<string, Dir>
    /** The files of the upload folder. */
    var uploads: map<string, Bytes>

    ghost predicate Valid()
      reads queue, controller
    {
      queue.Valid() && controller.Valid()
    }

    constructor(queue: JobQueue, controller: PlotterController, configs: Config.ConfigManager, now: Stamp)
      ensures this.queue == queue && this.controller == controller && this.configs == configs
      ensures appStatus == AppStatus(AppIdle, None, None, now) && scratch == map[] && uploads == map[]
    {
      this.queue := queue;
      this.controller := controller;
      this.configs := configs;
      appStatus := AppStatus(AppIdle, None, None, now);
      scratch := map[];
      uploads := map[];
    }

    /**
     * `submit_plot_json`: refusals change nothing; an accepted submission
     * adds exactly one job (or fails with 500 on a full queue) and asks for
     * a dispatcher when the plotter is idle.
     */
    method SubmitPlotJson(data: Json, now: Stamp) returns (reply: Reply, startDispatcher: bool)
      requires Valid()
      modifies queue
      ensures Valid()
      ensures JsonSubmission(data, now).Err? ==>
                reply == JsonSubmission(data, now).error && !startDispatcher && unchanged(queue)
      ensures JsonSubmission(data, now).Ok? && |old(queue.queue)| >= MaxQueueSize ==>
                reply == ServerError(QueueFullMessage) && !startDispatcher && unchanged(queue)
      ensures JsonSubmission(data, now).Ok? && |old(queue.queue)| < MaxQueueSize ==>
                var id := old(queue.nextId);
                && reply == Created(id, queue.GetPosition(id))
                && 1 <= reply.position
                && queue.jobs == old(queue.jobs)[id := NewJob(id, JsonSubmission(data, now).value, now)]
                && startDispatcher == controller.IsIdle()
    {
      var checked := JsonSubmission(data, now);
      if checked.Err? {
        return checked.error, false;
      }
      var r := queue.AddJob(checked.value, now);
      if r.Err? {
        return ServerError(r.error), false;
      }
      assert r.value in queue.queue;
      reply := Created(r.value, queue.GetPosition(r.value));
      startDispatcher := controller.IsIdle();
    }

    /**
     * The reassembly branch: chunks 0..total-1 are written to one file in
     * index order (a missing one raises with the file partly written and the
     * scratch directory kept), the scratch directory is removed, and one job
     * is queued for the file.
     */
    method Assemble(fileId: string, dir: Dir, total: int, form: ChunkForm, now: Stamp) returns (reply: Reply, startDispatcher: bool)
      requires Valid()
      modifies this, queue
      ensures Valid()
      ensures appStatus == old(appStatus)
      ensures var path := FinalPath(now, OrElse(form.filename, "upload.svg"));
              && (!HasChunks(dir, "chunk_", Steps(total)) ==>
                    && reply == ServerError(MissingChunkMessage)
                    && uploads == old(uploads)[path := Joined(dir, "chunk_", FirstMissing(dir, "chunk_", total))]
                    && scratch == old(scratch))
              && (HasChunks(dir, "chunk_", Steps(total)) ==>
                    uploads == old(uploads)[path := Joined(dir, "chunk_", Steps(total))]
                    && scratch == old(scratch) - {fileId})
      ensures !reply.Assembled? ==> !startDispatcher && unchanged(queue)
      ensures reply.Assembled? ==>
                var path := FinalPath(now, OrElse(form.filename, "upload.svg"));
                && HasChunks(dir, "chunk_", Steps(total))
                && FormJson(form.config).Some? && FormInt(form.priority, 1).Some?
                && reply.jobId == old(queue.nextId)
                && reply.fileSize == |Joined(dir, "chunk_", Steps(total))|
                && queue.jobs == old(queue.jobs)[reply.jobId := NewJob(reply.jobId,
                     ChunkJobData(form, path, FormJson(form.config).value, FormInt(form.priority, 1).value, now), now)]
                && 1 <= reply.position
                && startDispatcher == controller.IsIdle()
      ensures HasChunks(dir, "chunk_", Steps(total)) && FormJson(form.config).None? ==>
                reply == ServerError(JsonParseMessage)
      ensures HasChunks(dir, "chunk_", Steps(total)) && FormJson(form.config).Some? && FormInt(form.priority, 1).None? ==>
                reply == ServerError(IntParseMessage)
      ensures (&& HasChunks(dir, "chunk_", Steps(total)) && FormJson(form.config).Some?
               && FormInt(form.priority, 1).Some?) ==>
                (reply.Assembled? <==> |old(queue.queue)| < MaxQueueSize)
                && (!reply.Assembled? ==> reply == ServerError(QueueFullMessage))
    {
      var path := FinalPath(now, OrElse(form.filename, "upload.svg"));
      var out, missing := ReadChunks(dir, "chunk_", total);
      uploads := uploads[path := out];
      if missing.Some? {
        return ServerError(MissingChunkMessage), false;
      }
      scratch := scratch - {fileId};
      var overrides := FormJson(form.config);
      if overrides.None? {
        return ServerError(JsonParseMessage), false;
      }
      var priority := FormInt(form.priority, 1);
      if priority.None? {
        return ServerError(IntParseMessage), false;
      }
      var r := queue.AddJob(ChunkJobData(form, path, overrides.value, priority.value, now), now);
      if r.Err? {
        return ServerError(r.error), false;
      }
      assert r.value in queue.queue;
      reply := Assembled(r.value, queue.GetPosition(r.value), |out|);
      startDispatcher := controller.IsIdle();
    }

    /**
     * `upload_plot_chunk`: stores chunk `n` of upload `file_id` under
     * `chunk_{n}`, and reassembles once as many chunk names exist as
     * `total_chunks`.
     */
    method UploadPlotChunk(form: ChunkForm, chunkData: Option<Bytes>, now: Stamp) returns (reply: Reply, startDispatcher: bool)
      requires Valid()
      modifies this, queue
      ensures Valid()
      ensures appStatus == old(appStatus)
      ensures var step := ChunkRequest(form, chunkData, old(scratch));
              && (step.Refused? ==>
                    reply == step.reply && scratch == step.scratch && uploads == old(uploads)
                    && !startDispatcher && unchanged(queue))
              && (step.Stored? && ReceivedCount(step.dir, "chunk_") != step.total ==>
                    && reply == ChunkReceived(step.chunk, step.total, ReceivedCount(step.dir, "chunk_"))
                    && scratch == old(scratch)[step.fileId := step.dir] && uploads == old(uploads)
                    && !startDispatcher && unchanged(queue))
              && (reply.Assembled? ==>
                    && step.Stored? && ReceivedCount(step.dir, "chunk_") == step.total
                    && HasChunks(step.dir, "chunk_", Steps(step.total))
                    && FormJson(form.config).Some? && FormInt(form.priority, 1).Some?
                    && var path := FinalPath(now, OrElse(form.filename, "upload.svg"));
                       && uploads == old(uploads)[path := Joined(step.dir, "chunk_", Steps(step.total))]
                       && !(step.fileId in scratch)
                       && reply.fileSize == |uploads[path]|
                       && queue.jobs == old(queue.jobs)[reply.jobId := NewJob(reply.jobId,
                            ChunkJobData(form, path, FormJson(form.config).value, FormInt(form.priority, 1).value, now), now)]
                       && startDispatcher == controller.IsIdle())
      ensures var step := ChunkRequest(form, chunkData, old(scratch));
              step.Stored? && ReceivedCount(step.dir, "chunk_") == step.total ==>
                var path := FinalPath(now, OrElse(form.filename, "upload.svg"));
                var complete := HasChunks(step.dir, "chunk_", Steps(step.total));
                && (!complete ==>
                      && reply == ServerError(MissingChunkMessage)
                      && uploads == old(uploads)[path := Joined(step.dir, "chunk_", FirstMissing(step.dir, "chunk_", step.total))]
                      && scratch == old(scratch)[step.fileId := step.dir]
                      && !startDispatcher && unchanged(queue))
                && (complete ==>
                      && uploads == old(uploads)[path := Joined(step.dir, "chunk_", Steps(step.total))]
                      && scratch == old(scratch)[step.fileId := step.dir] - {step.fileId})
                && (complete && FormJson(form.config).None? ==> reply == ServerError(JsonParseMessage))
                && (complete && FormJson(form.config).Some? && FormInt(form.priority, 1).None? ==>
                      reply == ServerError(IntParseMessage))
                && (complete && FormJson(form.config).Some? && FormInt(form.priority, 1).Some? ==>
                      (reply.Assembled? <==> |old(queue.queue)| < MaxQueueSize)
                      && (!reply.Assembled? ==> reply == ServerError(QueueFullMessage) && unchanged(queue)))
    {
      var step := ChunkRequest(form, chunkData, scratch);
      match step
      case Refused(r, s) =>
        scratch := s;
        return r, false;
      case Stored(fileId, n, total, dir) =>
        scratch := scratch[fileId := dir];
        var count := ReceivedCount(dir, "chunk_");
        if count != total {
          return ChunkReceived(n, total, count), false;
        }
        reply, startDispatcher := Assemble(fileId, dir, total, form, now);
    }

    /**
     * The start-up in `__main__`: `initialize()` then `IDLE`, or `ERROR`
     * with the initialisation message; after a failure the controller is
     * not idle, so no dispatcher ever runs a job.
     */
    method Startup(h: Handshake, now: Stamp) returns (ok: bool)
      requires Valid()
      modifies this, controller
      ensures Valid()
      ensures appStatus.lastUpdated == now && appStatus.currentJob.None?
      ensures ok ==> appStatus.status == AppIdle && appStatus.errorMessage.None?
      ensures !ok ==> appStatus.status == AppError && controller.lastError.Some?
                      && appStatus.errorMessage == Some(InitFailedPrefix + controller.lastError.value)
                      && !controller.IsIdle()
      ensures scratch == old(scratch) && uploads == old(uploads)
    {
      ok := controller.Initialize(configs.config, h);
      if ok {
        appStatus := AppStatus(AppIdle, None, None, now);
      } else {
        appStatus := AppStatus(AppError, None, Some(InitFailedPrefix + controller.lastError.value), now);
      }
    }

    /** One dispatched job: run by the controller, then recorded as completed or failed. */
    method RunJob(job: Job, run: DriverRun, now: Stamp)
      requires Valid() && controller.IsIdle()
      requires job.id in queue.jobs && queue.jobs[job.id].status == Running
      modifies queue, controller
      ensures Valid() && controller.IsIdle()
      ensures queue.nextId == old(queue.nextId)
      ensures queue.jobs.Keys == old(queue.jobs).Keys
      ensures Finished(queue.jobs[job.id])
      ensures queue.jobs == old(queue.jobs)[job.id := queue.jobs[job.id]]
    {
      var result := controller.ExecuteJob(job, None, configs.config, run);
      if result.Succeeded? {
        queue.CompleteJob(job.id, result, now);
      } else {
        queue.FailJob(job.id, result.error, now);
      }
    }

    /**
     * One round of the `process_jobs` loop with an idle controller: take the
     * next queued job, mark the server busy with it, run it and record its
     * result; or find that no queued job is left and change nothing.
     */
    method DispatchNext(run: DriverRun, now: Stamp) returns (more: bool)
      requires Valid() && controller.IsIdle()
      modifies this, queue, controller
      ensures Valid() && controller.IsIdle()
      ensures queue.jobs.Keys == old(queue.jobs).Keys && queue.nextId == old(queue.nextId)
      ensures forall id | id in old(queue.jobs) :: Dispatched(old(queue.jobs)[id], queue.jobs[id])
      ensures !more ==> Count(queue.jobs, Queued) == 0 && queue.jobs == old(queue.jobs)
                        && appStatus == old(appStatus)
      ensures more ==> Count(queue.jobs, Queued) < old(Count(queue.jobs, Queued))
                       && appStatus == AppStatus(AppIdle, None, None, now)
      ensures scratch == old(scratch) && uploads == old(uploads)
    {
      ghost var before := queue.jobs;
      var job := queue.GetNextJob(now);
      if job.None? {
        NoQueuedLeft(queue.jobs, queue.queue, queue.nextId);
        return false;
      }
      var id := job.value.id;
      LeaveQueued(before, id, job.value);
      ghost var started := queue.jobs;
      appStatus := AppStatus(AppPlotting, Some(id), None, now);
      RunJob(job.value, run, now);
      StayOutOfQueued(started, id, queue.jobs[id]);
      forall x | x in before ensures Dispatched(before[x], queue.jobs[x]) {
        if x != id {
          assert queue.jobs[x] == before[x];
        }
      }
      appStatus := AppStatus(AppIdle, None, None, now);
      return true;
    }

    /**
     * `process_jobs`: while the controller is idle, start the next queued
     * job, run it, and record its result as completed or failed. A
     * controller that is not idle at the start keeps the loop waiting for
     * ever with nothing changed (`Stalled`); otherwise the loop ends when no
     * queued job is left (`Drained`). `runs(k)` is the driver's behaviour for
     * the k-th job dispatched.
     */
    method ProcessJobs(runs: nat -> DriverRun, now: Stamp) returns (end: DispatchEnd, dispatched: nat)
      requires Valid()
      modifies this, queue, controller
      ensures Valid()
      ensures end == Stalled <==> !old(controller.IsIdle())
      ensures end == Stalled ==> unchanged(this) && unchanged(queue) && unchanged(controller)
      ensures end == Drained ==> Count(queue.jobs, Queued) == 0 && controller.IsIdle()
      ensures queue.jobs.Keys == old(queue.jobs).Keys && queue.nextId == old(queue.nextId)
      ensures forall id | id in old(queue.jobs) :: Dispatched(old(queue.jobs)[id], queue.jobs[id])
      ensures dispatched > 0 ==> appStatus == AppStatus(AppIdle, None, None, now)
      ensures dispatched == 0 ==> appStatus == old(appStatus)
      ensures scratch == old(scratch) && uploads == old(uploads)
    {
      if !controller.IsIdle() {
        return Stalled, 0;
      }
      dispatched := 0;
      while true
        invariant Valid() && controller.IsIdle()
        invariant queue.jobs.Keys == old(queue.jobs).Keys && queue.nextId == old(queue.nextId)
        invariant forall id | id in old(queue.jobs) :: Dispatched(old(queue.jobs)[id], queue.jobs[id])
        invariant dispatched > 0 ==> appStatus == AppStatus(AppIdle, None, None, now)
        invariant dispatched == 0 ==> appStatus == old(appStatus)
        invariant scratch == old(scratch) && uploads == old(uploads)
        decreases Count(queue.jobs, Queued)
      {
        ghost var mid := queue.jobs;
        var more := DispatchNext(runs(dispatched), now);
        if !more {
          return Drained, dispatched;
        }
        forall x | x in old(queue.jobs) ensures Dispatched(old(queue.jobs)[x], queue.jobs[x]) {
          DispatchedTrans(old(queue.jobs)[x], mid[x], queue.jobs[x]);
        }
        dispatched := dispatched + 1;
      }
    }
  }
}
