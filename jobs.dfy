/**
 * Job records as the queue stores them and the result dictionaries the
 * plotter controller returns for them.
 */
module Jobs {
  import opened Wrappers
  import opened Json
  import opened Strings

  /** The five values of a job's `status` field. */
  datatype JobStatus = Queued | Running | Completed | Failed | Cancelled {
    /** Statuses whose ids remain in the queue list. */
    predicate InList() {
      this == Queued || this == Running
    }
  }

  /** A job id (a fresh `uuid4` string in the server). */
  type JobId = nat

  /** A point in time, standing for both `int(time.time())` and ISO timestamps. */
  type Stamp = nat

  /** The controller's `stats` dictionary; durations are whole seconds. */
  datatype Stats = Stats(
    totalJobs: nat,
    successfulJobs: nat,
    failedJobs: nat,
    totalPlotTime: nat,
    lastJobTime: Option<nat>)

  const InitialStats := Stats(0, 0, 0, 0, None)

  /**
   * The dictionary `execute_job` returns: `{"success": True, "plot_time",
   * "output_svg", "stats"}` or `{"success": False, "error"}`.
   */
  datatype PlotResult =
    | Succeeded(plotTime: nat, outputSvg: Option<string>, stats: Stats)
    | Rejected(error: string)

  /**
   * The `job_data` dictionary handed to `add_job`; `None` is an absent key.
   * Values that come straight from a request body stay JSON values.
   */
  datatype JobData = JobData(
    name: Option<Json>,
    description: Option<Json>,
    svgContent: Option<Json>,
    svgFile: Option<Json>,
    configOverrides: Option<Json>,
    priority: Option<int>,
    submittedAt: Option<Stamp>,
    startMm: Option<Json>)

  /** A job record; it has no `start_mm` field, whatever `job_data` held. */
  datatype Job = Job(
    id: JobId,
    name: Json,
    description: Json,
    svgContent: Json,
    svgFile: Json,
    configOverrides: Json,
    priority: int,
    status: JobStatus,
    submittedAt: Stamp,
    startedAt: Option<Stamp>,
    completedAt: Option<Stamp>,
    errorMessage: Option<string>,
    result: Option<PlotResult>,
    progress: int)

  /** `f'Job_{int(time.time())}'` */
  function DefaultJobName(now: Stamp): string {
    "Job_" + NatToString(now)
  }

  /** `job_data.get('priority', 1)` */
  function DataPriority(data: JobData): int {
    OrElse(data.priority, 1)
  }

  /** The record `add_job` builds for a new id. */
  function NewJob(id: JobId, data: JobData, now: Stamp): Job {
    Job(
      id,
      OrElse(data.name, JStr(DefaultJobName(now))),
      OrElse(data.description, JStr("")),
      OrElse(data.svgContent, JNull),
      OrElse(data.svgFile, JNull),
      OrElse(data.configOverrides, JObj(map[])),
      DataPriority(data),
      Queued,
      OrElse(data.submittedAt, now),
      None,
      None,
      None,
      None,
      0)
  }
}
