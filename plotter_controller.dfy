/**
 * The plotter controller: a small state machine over `status`,
 * `is_plotting`, `is_paused`, `current_job` and `stats`, driving an opaque
 * NextDraw driver whose answers are given up front as an oracle.
 */
module Controller {
  import opened Wrappers
  import opened Json
  import opened Jobs

  datatype PlotterStatus = Disconnected | Idle | Plotting | Paused | Error | ConnectionError

  /** A driver call that returns a value or raises with a message. */
  datatype Call<+T> = Returns(value: T) | Raises(message: string)

  /**
   * The driver's answers during `initialize()`: `interactive()` and
   * `disconnect()` return or raise (the message), `connect()` returns its
   * boolean or raises.
   */
  datatype Handshake = Handshake(interactiveError: Option<string>, connect: Call<bool>, disconnectError: Option<string>)

  /** A controller request served while `plot_run` is drawing. */
  datatype Interruption = StopRequest | PauseRequest | ResumeRequest

  /**
   * What the driver and the file system answer during one `execute_job`:
   * `plot_setup(svg)`, `os.path.exists(svg_file)`, the resume-position
   * `plot_run`, the second `plot_setup`, the drawing `plot_run`, the requests
   * that arrive while it draws, and the elapsed seconds.
   */
  datatype DriverRun = DriverRun(
    setupError: Option<string>,
    svgFileExists: bool,
    adjust: Call<Json>,
    resetupError: Option<string>,
    draw: Call<Json>,
    during: seq<Interruption>,
    elapsed: nat)

  /** The attribute values of a NextDraw `options` object; its keys are the attribute names it has. */
  type Options = map<string, Json>

  const BusyMessage := "Plotter is already busy"
  const NoSvgMessage := "No valid SVG content or file provided"
  const CancelledMessage := "Job was cancelled"
  const StartPrefix := "Failed to set start position: "
  const ConnectFailedMessage := "Failed to connect to NextDraw plotter"
  const UtilityBusyMessage := "Cannot execute utility while plotting"
  /** Stand for the AttributeErrors of `params.get` on a non-dict and of `.lower()` on a non-string. */
  const NoGetMessage := "object has no attribute 'get'"
  const NoLowerMessage := "object has no attribute 'lower'"
  /** Stands for the text of the `AttributeError` raised by `.items()` on a value that is not a dictionary. */
  const NotDictMessage := "object has no attribute 'items'"
  /** Stands for the text of the `ValueError` or `TypeError` raised by `float(start_mm)`. */
  const FloatMessage := "could not convert start_mm to float"

  // ---------------------------------------------------------------------
  // Option filtering (`_apply_config`, the override loop, `_apply_config_to_instance`).

  /** `setattr(options, key, value)` for every key `options` already has; other keys are ignored. */
  function Applied(options: Options, settings: Object): Options {
    map k | k in options :: if k in settings then settings[k] else options[k]
  }

  /** The loop over `settings.items()` guarded by `hasattr`. */
  method ApplyOptions(options: Options, settings: Object) returns (r: Options)
    ensures r == Applied(options, settings)
  {
    r := options;
    var pending := settings.Keys;
    while pending != {}
      invariant pending <= settings.Keys
      invariant r.Keys == options.Keys
      invariant forall k | k in options :: r[k] == if k in settings && k !in pending then settings[k] else options[k]
      decreases pending
    {
      var k :| k in pending;
      if k in r {
        r := r[k := settings[k]];
      }
      pending := pending - {k};
    }
    assert r == Applied(options, settings);
  }

  /** The option names never change, and a name the options lack is ignored. */
  lemma AppliedKeepsNames(options: Options, settings: Object, k: string)
    ensures Applied(options, settings).Keys == options.Keys
    ensures k !in options ==> Applied(options, settings) == Applied(options, settings - {k})
  {
  }

  /** Applying the same settings twice is applying them once. */
  lemma AppliedIdempotent(options: Options, settings: Object)
    ensures Applied(Applied(options, settings), settings) == Applied(options, settings)
  {
  }

  /** Job overrides applied after the base configuration win over it. */
  lemma AppliedLaterWins(options: Options, base: Object, overrides: Object)
    ensures Applied(Applied(options, base), overrides) == Applied(options, base + overrides)
  {
  }

  // ---------------------------------------------------------------------
  // The reference description of an accepted job.

  function CountFailure(s: Stats): Stats {
    s.(failedJobs := s.failedJobs + 1)
  }

  function CountSuccess(s: Stats, elapsed: nat): Stats {
    Stats(s.totalJobs + 1, s.successfulJobs + 1, s.failedJobs, s.totalPlotTime + elapsed, Some(elapsed))
  }

  /** Where the preparation of a job ends: ready to draw, or returned early. */
  datatype Stage =
    | Ready(options: Options)
    | Returned(result: PlotResult, counted: bool, options: Options)

  /** The resume-position block for `start_mm`; its errors are caught and not counted. */
  function StartAt(options: Options, startMm: Option<Json>, run: DriverRun): Stage {
    if startMm.None? then Ready(options)
    else
      var o := options["mode" := JStr("utility")]["utility_cmd" := JStr("res_adj_mm")];
      if !PyFloatOk(startMm.value) then Returned(Rejected(StartPrefix + FloatMessage), false, o)
      else
        var o' := o["dist" := startMm.value];
        match run.adjust
        case Raises(m) => Returned(Rejected(StartPrefix + m), false, o')
        case Returns(_) =>
          if run.resetupError.Some? then Returned(Rejected(StartPrefix + run.resetupError.value), false, o')
          else Ready(o'["mode" := JStr("res_plot")])
  }

  /** `svg_content` if truthy, else an existing truthy `svg_file`. */
  predicate HasSvg(job: Job, run: DriverRun) {
    Truthy(job.svgContent) || (Truthy(job.svgFile) && run.svgFileExists)
  }

  /** Everything `execute_job` does before the drawing `plot_run`. */
  function Prepare(defaults: Options, config: Object, job: Job, startMm: Option<Json>, run: DriverRun): Stage {
    var settings := Get(config, "plotter_settings", JObj(map[]));
    if !settings.JObj? then Returned(Rejected(NotDictMessage), true, defaults)
    else
      var o1 := Applied(defaults, settings.fields);
      if !job.configOverrides.JObj? then Returned(Rejected(NotDictMessage), true, o1)
      else
        var o2 := Applied(o1, job.configOverrides.fields);
        if !HasSvg(job, run) then Returned(Rejected(NoSvgMessage), false, o2)
        else if run.setupError.Some? then Returned(Rejected(run.setupError.value), true, o2)
        else StartAt(o2, startMm, run)
  }

  datatype Outcome = Outcome(result: PlotResult, stats: Stats, options: Options)

  /** The result, statistics and driver options `execute_job` leaves for an accepted job. */
  function Execute(defaults: Options, config: Object, job: Job, startMm: Option<Json>, run: DriverRun, stats: Stats): Outcome {
    match Prepare(defaults, config, job, startMm, run)
    case Returned(result, counted, options) => Outcome(result, if counted then CountFailure(stats) else stats, options)
    case Ready(options) =>
      match run.draw
      case Raises(m) => Outcome(Rejected(m), CountFailure(stats), options)
      case Returns(out) =>
        if StopRequest in run.during then Outcome(Rejected(CancelledMessage), stats, options)
        else
          var s := CountSuccess(stats, run.elapsed);
          Outcome(Succeeded(run.elapsed, if out.JStr? then Some(out.s) else None, s), s, options)
  }

  /**
   * Statistics: a success adds one job, one success and its time; anything
   * else leaves the job and success counts alone and adds at most one failure.
   */
  lemma ExecuteAccounting(defaults: Options, config: Object, job: Job, startMm: Option<Json>, run: DriverRun, stats: Stats)
    ensures var out := Execute(defaults, config, job, startMm, run, stats);
            && (out.result.Succeeded? <==>
                  Prepare(defaults, config, job, startMm, run).Ready? && run.draw.Returns? && StopRequest !in run.during)
            && (out.result.Succeeded? ==>
                  out.stats == CountSuccess(stats, run.elapsed) && out.result.stats == out.stats
                  && out.result.plotTime == run.elapsed)
            && (out.result.Rejected? ==>
                  out.stats.totalJobs == stats.totalJobs && out.stats.successfulJobs == stats.successfulJobs
                  && out.stats.lastJobTime == stats.lastJobTime
                  && (out.stats.failedJobs == stats.failedJobs || out.stats == CountFailure(stats)))
  {
  }

  /** Once prepared, a draw that returns is reported cancelled exactly when a stop request arrived. */
  lemma CancelledIffStopped(defaults: Options, config: Object, job: Job, startMm: Option<Json>, run: DriverRun, stats: Stats)
    requires Prepare(defaults, config, job, startMm, run).Ready? && run.draw.Returns?
    ensures var out := Execute(defaults, config, job, startMm, run, stats);
            (out.result == Rejected(CancelledMessage) <==> StopRequest in run.during)
            && (StopRequest in run.during ==> out.stats == stats)
  {
  }

  /** A draw that raises is a counted failure carrying the driver's message. */
  lemma DrawFailureCounted(defaults: Options, config: Object, job: Job, startMm: Option<Json>, run: DriverRun, stats: Stats)
    requires Prepare(defaults, config, job, startMm, run).Ready? && run.draw.Raises?
    ensures var out := Execute(defaults, config, job, startMm, run, stats);
            out.result == Rejected(run.draw.message) && out.stats == CountFailure(stats)
  {
  }

  /** Without usable SVG input the job is refused, uncounted, before the driver is set up. */
  lemma SvgRequired(defaults: Options, config: Object, job: Job, startMm: Option<Json>, run: DriverRun, stats: Stats)
    requires Get(config, "plotter_settings", JObj(map[])).JObj? && job.configOverrides.JObj?
    ensures var out := Execute(defaults, config, job, startMm, run, stats);
            && (!HasSvg(job, run) ==> out.result == Rejected(NoSvgMessage) && out.stats == stats)
            && (out.result.Succeeded? ==> HasSvg(job, run))
  {
  }

  /**
   * Only option names the driver already has are set from the configuration
   * and the overrides; the resume block adds `mode`, `utility_cmd` and `dist`.
   */
  lemma OptionsFiltered(defaults: Options, config: Object, job: Job, startMm: Option<Json>, run: DriverRun, stats: Stats)
    ensures var out := Execute(defaults, config, job, startMm, run, stats);
            && out.options.Keys <= defaults.Keys + {"mode", "utility_cmd", "dist"}
            && (startMm.None? ==> out.options.Keys == defaults.Keys)
  {
    var settings := Get(config, "plotter_settings", JObj(map[]));
    if settings.JObj? {
      AppliedKeepsNames(defaults, settings.fields, "");
      if job.configOverrides.JObj? {
        AppliedKeepsNames(Applied(defaults, settings.fields), job.configOverrides.fields, "");
      }
    }
  }

  // ---------------------------------------------------------------------
  // Utility commands.

  datatype UtilityReply =
    | UtilityDone(message: string)
    | UtilityInfo(info: Json)
    | UtilityRefused(message: string)
    | UtilityError(error: string)

  /** The driver's answers to one utility command: `plot_setup()`, the command's run, and `connect()`. */
  datatype UtilityRun = UtilityRun(setupError: Option<string>, run: Call<Json>, connected: bool)

  const UtilityCommands: seq<string> := ["home", "raise_pen", "lower_pen", "toggle_pen", "move", "get_info", "go_to_limit"]

  /**
   * The reply of a command once the driver was set up. Only `move` reads
   * `params`: `params.get` raises unless it is a dict, and `direction.lower()`
   * unless the direction is a string.
   */
  function UtilityCommand(command: string, params: Json, u: UtilityRun): UtilityReply {
    if command == "go_to_limit" then
      if u.connected then UtilityDone("Moved to plotter limit (34, 22)") else UtilityRefused("No connection")
    else if command !in UtilityCommands then UtilityError("Unknown utility command: " + command)
    else if command == "move" && !params.JObj? then UtilityError(NoGetMessage)
    else if command == "move" && !Get(params.fields, "direction", JStr("x")).JStr? then UtilityError(NoLowerMessage)
    else
      match u.run
      case Raises(m) => UtilityError(m)
      case Returns(v) =>
        if command == "home" then UtilityDone("Moved to home position")
        else if command == "raise_pen" then UtilityDone("Pen raised")
        else if command == "lower_pen" then UtilityDone("Pen lowered")
        else if command == "toggle_pen" then UtilityDone("Pen toggled")
        else if command == "get_info" then UtilityInfo(v)
        else
          // The default distance `1.0` only reaches `str()`, which renders it as `1.0`.
          UtilityDone("Moved " + PyStr(Get(params.fields, "distance", JStr("1.0"))) + " "
                      + PyStr(Get(params.fields, "units", JStr("mm"))) + " in "
                      + PyStr(Get(params.fields, "direction", JStr("x"))))
  }

  class PlotterController {
    /** The options of a fresh `NextDraw()`. */
    const defaults: Options
    /** `self.nextdraw.options`; `None` while `self.nextdraw` is `None`. */
    var driver: Option<Options>
    var status: PlotterStatus
    var currentJob: Option<Job>
    var isPlotting: bool
    var isPaused: bool
    var lastError: Option<string>
    var stats: Stats

    /**
     * A job is held exactly while plotting, only a plotting controller is
     * paused, and `total_jobs` only ever counts successes.
     */
    predicate Valid()
      reads this
    {
      && (currentJob.Some? <==> isPlotting)
      && (isPaused ==> isPlotting)
      && stats.totalJobs == stats.successfulJobs
    }

    /** `is_idle()` */
    predicate IsIdle()
      reads this
    {
      status == Idle && !isPlotting && !isPaused
    }

    constructor(defaults: Options)
      ensures Valid()
      ensures this.defaults == defaults && driver.None? && status == Disconnected
      ensures currentJob.None? && !isPlotting && !isPaused && lastError.None? && stats == InitialStats
    {
      this.defaults := defaults;
      driver := None;
      status := Disconnected;
      currentJob := None;
      isPlotting := false;
      isPaused := false;
      lastError := None;
      stats := InitialStats;
    }

    /**
     * `initialize()`: a fresh driver with the configuration applied, then
     * `interactive()`, `connect()` and, after a successful connect,
     * `disconnect()`. Every failure ends in `ERROR` with its message, so
     * `CONNECTION_ERROR`, set just before the raise, never survives.
     */
    method Initialize(config: Object, h: Handshake) returns (ok: bool)
      requires Valid()
      modifies this
      ensures Valid()
      ensures currentJob == old(currentJob) && isPlotting == old(isPlotting) && isPaused == old(isPaused)
      ensures stats == old(stats)
      ensures var settings := Get(config, "plotter_settings", JObj(map[]));
              && (ok <==> settings.JObj? && h.interactiveError.None? && h.connect == Returns(true) && h.disconnectError.None?)
              && (!settings.JObj? ==> driver == Some(defaults) && lastError == Some(NotDictMessage))
              && (settings.JObj? ==> driver == Some(Applied(defaults, settings.fields)))
              && (settings.JObj? && h.interactiveError.Some? ==> lastError == h.interactiveError)
              && (settings.JObj? && h.interactiveError.None? ==>
                    && (h.connect == Returns(false) ==> lastError == Some(ConnectFailedMessage))
                    && (h.connect.Raises? ==> lastError == Some(h.connect.message))
                    && (h.connect == Returns(true) && h.disconnectError.Some? ==> lastError == h.disconnectError))
      ensures ok ==> status == Idle && lastError == old(lastError)
      ensures !ok ==> status == Error && lastError.Some?
    {
      driver := Some(defaults);
      var settings := Get(config, "plotter_settings", JObj(map[]));
      if !settings.JObj? {
        status := Error;
        lastError := Some(NotDictMessage);
        return false;
      }
      var options := ApplyOptions(defaults, settings.fields);
      driver := Some(options);
      if h.interactiveError.Some? {
        status := Error;
        lastError := h.interactiveError;
        return false;
      }
      match h.connect
      case Raises(m) =>
        status := Error;
        lastError := Some(m);
        ok := false;
      case Returns(connected) =>
        if connected {
          status := Idle;
          if h.disconnectError.Some? {
            status := Error;
            lastError := h.disconnectError;
            ok := false;
          } else {
            ok := true;
          }
        } else {
          status := ConnectionError;
          status := Error;
          lastError := Some(ConnectFailedMessage);
          ok := false;
        }
    }

    /** `pause()`: only a plotting, unpaused controller pauses. */
    method Pause() returns (ok: bool)
      requires Valid()
      modifies this
      ensures Valid()
      ensures ok <==> old(isPlotting) && !old(isPaused)
      ensures ok ==> isPaused && status == Paused
      ensures !ok ==> isPaused == old(isPaused) && status == old(status)
      ensures isPlotting == old(isPlotting) && currentJob == old(currentJob)
      ensures stats == old(stats) && driver == old(driver) && lastError == old(lastError)
    {
      if !isPlotting || isPaused {
        return false;
      }
      isPaused := true;
      status := Paused;
      return true;
    }

    /** `resume()`: only a paused controller resumes. */
    method Resume() returns (ok: bool)
      requires Valid()
      modifies this
      ensures Valid()
      ensures ok <==> old(isPaused)
      ensures ok ==> !isPaused && status == Plotting
      ensures !ok ==> isPaused == old(isPaused) && status == old(status)
      ensures isPlotting == old(isPlotting) && currentJob == old(currentJob)
      ensures stats == old(stats) && driver == old(driver) && lastError == old(lastError)
    {
      if !isPaused {
        return false;
      }
      isPaused := false;
      status := Plotting;
      return true;
    }

    /** `stop()`: a plotting controller, paused or not, drops its job and becomes idle. */
    method Stop() returns (ok: bool)
      requires Valid()
      modifies this
      ensures Valid()
      ensures ok <==> old(isPlotting)
      ensures ok ==> IsIdle() && currentJob.None?
      ensures !ok ==> isPaused == old(isPaused) && status == old(status) && currentJob == old(currentJob)
      ensures !isPlotting
      ensures stats == old(stats) && driver == old(driver) && lastError == old(lastError)
    {
      if !isPlotting {
        return false;
      }
      isPlotting := false;
      isPaused := false;
      currentJob := None;
      status := Idle;
      return true;
    }

    /** The requests that reach the controller while the driver draws, in arrival order. */
    method Serve(calls: seq<Interruption>)
      requires Valid() && isPlotting
      modifies this
      ensures Valid()
      ensures isPlotting <==> StopRequest !in calls
      ensures stats == old(stats) && driver == old(driver) && lastError == old(lastError)
    {
      for i := 0 to |calls|
        invariant Valid()
        invariant isPlotting <==> StopRequest !in calls[..i]
        invariant stats == old(stats) && driver == old(driver) && lastError == old(lastError)
      {
        assert calls[..i + 1] == calls[..i] + [calls[i]];
        match calls[i]
        case StopRequest =>
          var _ := Stop();
        case PauseRequest =>
          var _ := Pause();
        case ResumeRequest =>
          var _ := Resume();
      }
      assert calls[..|calls|] == calls;
    }

    /** Accepting a job (lines 124-127). */
    method Accept(job: Job)
      requires Valid() && !isPlotting
      modifies this
      ensures Valid()
      ensures currentJob == Some(job) && isPlotting && !isPaused && status == Plotting
      ensures stats == old(stats) && driver == old(driver) && lastError == old(lastError)
    {
      currentJob := Some(job);
      isPlotting := true;
      isPaused := false;
      status := Plotting;
    }

    /** The `finally` block. */
    method Finish()
      requires Valid()
      modifies this
      ensures Valid() && IsIdle() && currentJob.None?
      ensures stats == old(stats) && driver == old(driver) && lastError == old(lastError)
    {
      currentJob := None;
      isPlotting := false;
      isPaused := false;
      status := Idle;
    }

    /** The body of the `try` block once a job is accepted. */
    method Run(job: Job, startMm: Option<Json>, config: Object, run: DriverRun) returns (r: PlotResult)
      requires Valid() && isPlotting
      modifies this
      ensures Valid()
      ensures var out := Execute(defaults, config, job, startMm, run, old(stats));
              r == out.result && stats == out.stats && driver == Some(out.options)
      ensures lastError == old(lastError)
    {
      var options := defaults;
      driver := Some(options);
      var settings := Get(config, "plotter_settings", JObj(map[]));
      if !settings.JObj? {
        stats := CountFailure(stats);
        return Rejected(NotDictMessage);
      }
      options := ApplyOptions(options, settings.fields);
      driver := Some(options);
      if !job.configOverrides.JObj? {
        stats := CountFailure(stats);
        return Rejected(NotDictMessage);
      }
      options := ApplyOptions(options, job.configOverrides.fields);
      driver := Some(options);
      if !HasSvg(job, run) {
        return Rejected(NoSvgMessage);
      }
      if run.setupError.Some? {
        stats := CountFailure(stats);
        return Rejected(run.setupError.value);
      }
      if startMm.Some? {
        options := options["mode" := JStr("utility")]["utility_cmd" := JStr("res_adj_mm")];
        driver := Some(options);
        if !PyFloatOk(startMm.value) {
          return Rejected(StartPrefix + FloatMessage);
        }
        options := options["dist" := startMm.value];
        driver := Some(options);
        if run.adjust.Raises? {
          return Rejected(StartPrefix + run.adjust.message);
        }
        if run.resetupError.Some? {
          return Rejected(StartPrefix + run.resetupError.value);
        }
        options := options["mode" := JStr("res_plot")];
        driver := Some(options);
      }
      assert Prepare(defaults, config, job, startMm, run) == Ready(options);
      Serve(run.during);
      match run.draw
      case Raises(m) =>
        stats := CountFailure(stats);
        r := Rejected(m);
      case Returns(out) =>
        if !isPlotting {
          r := Rejected(CancelledMessage);
        } else {
          stats := CountSuccess(stats, run.elapsed);
          r := Succeeded(run.elapsed, if out.JStr? then Some(out.s) else None, stats);
        }
    }

    /**
     * `execute_job(job)` with the busy guard leaving a running job alone; an
     * accepted job always ends idle, whatever the outcome.
     */
    method ExecuteJob(job: Job, startMm: Option<Json>, config: Object, run: DriverRun) returns (r: PlotResult)
      requires Valid()
      modifies this
      ensures Valid()
      ensures old(isPlotting) ==> r == Rejected(BusyMessage) && unchanged(this)
      ensures !old(isPlotting) ==>
                var out := Execute(defaults, config, job, startMm, run, old(stats));
                && r == out.result && stats == out.stats && driver == Some(out.options)
                && IsIdle() && currentJob.None? && lastError == old(lastError)
    {
      if isPlotting {
        return Rejected(BusyMessage);
      }
      Accept(job);
      r := Run(job, startMm, config, run);
      Finish();
    }

    /**
     * `execute_job(job)` as written: the busy `return` still runs the
     * `finally` block, which resets the state of the job being drawn.
     */
    method ExecuteJobAsWritten(job: Job, startMm: Option<Json>, config: Object, run: DriverRun) returns (r: PlotResult)
      requires Valid()
      modifies this
      ensures Valid() && IsIdle() && currentJob.None?
      ensures old(isPlotting) ==> r == Rejected(BusyMessage) && stats == old(stats) && driver == old(driver)
      ensures !old(isPlotting) ==>
                var out := Execute(defaults, config, job, startMm, run, old(stats));
                r == out.result && stats == out.stats && driver == Some(out.options)
      ensures lastError == old(lastError)
    {
      if isPlotting {
        r := Rejected(BusyMessage);
      } else {
        Accept(job);
        r := Run(job, startMm, config, run);
      }
      Finish();
    }

    /**
     * `execute_utility(command, params)`: refused while plotting; the command
     * runs on a separate driver instance and leaves the controller as it was.
     */
    function ExecuteUtility(config: Object, command: string, params: Option<Json>, u: UtilityRun): (r: UtilityReply)
      reads this
      ensures isPlotting ==> r == UtilityError(UtilityBusyMessage)
      ensures !isPlotting && !Get(config, "plotter_settings", JObj(map[])).JObj? ==> r == UtilityError(NotDictMessage)
      ensures !isPlotting && Get(config, "plotter_settings", JObj(map[])).JObj? && u.setupError.Some?
              ==> r == UtilityError(u.setupError.value)
      ensures !isPlotting && Get(config, "plotter_settings", JObj(map[])).JObj? && u.setupError.None?
              && command !in UtilityCommands
              ==> r == UtilityError("Unknown utility command: " + command)
      ensures !isPlotting && Get(config, "plotter_settings", JObj(map[])).JObj? && u.setupError.None?
              && command == "home" && u.run.Returns?
              ==> r == UtilityDone("Moved to home position")
      ensures r.UtilityDone? || r.UtilityInfo? ==> !isPlotting && command in UtilityCommands
      ensures r.UtilityInfo? ==> command == "get_info" && u.run == Returns(r.info)
    {
      if isPlotting then UtilityError(UtilityBusyMessage)
      else if !Get(config, "plotter_settings", JObj(map[])).JObj? then UtilityError(NotDictMessage)
      else if u.setupError.Some? then UtilityError(u.setupError.value)
      else
        var p := if params.Some? && Truthy(params.value) then params.value else JObj(map[]);
        UtilityCommand(command, p, u)
    }
  }

  /**
   * Only `move` looks at the parameters: for every other command the reply
   * is the one with no parameters at all, whatever JSON value was sent.
   */
  lemma UtilityParamsOnlyMove(c: PlotterController, config: Object, command: string, params: Json, u: UtilityRun)
    ensures command != "move" ==>
              c.ExecuteUtility(config, command, Some(params), u) == c.ExecuteUtility(config, command, None, u)
  {
  }

  /** A `move` with parameters that are not a dict, or a direction that is not a string, raises. */
  lemma MoveNeedsDict(c: PlotterController, config: Object, params: Json, u: UtilityRun)
    requires !c.isPlotting && Get(config, "plotter_settings", JObj(map[])).JObj? && u.setupError.None?
    ensures Truthy(params) && !params.JObj? ==> c.ExecuteUtility(config, "move", Some(params), u).UtilityError?
    ensures params.JObj? && !Get(params.fields, "direction", JStr("x")).JStr?
            ==> c.ExecuteUtility(config, "move", Some(params), u).UtilityError?
    ensures params.JObj? && Get(params.fields, "direction", JStr("x")).JStr? && u.run.Returns?
            ==> c.ExecuteUtility(config, "move", Some(params), u).UtilityDone?
  {
  }

  /** Under the code as written, a second `execute_job` during a draw makes the drawn job read as cancelled. */
  method BusyRejectionCancelsRunningJob(first: Job, second: Job, config: Object, run: DriverRun)
    returns (plottingBefore: bool, plottingAfter: bool, reply: PlotResult)
    ensures plottingBefore && !plottingAfter && reply == Rejected(BusyMessage)
  {
    var c := new PlotterController(map[]);
    c.Accept(first);
    plottingBefore := c.isPlotting;
    reply := c.ExecuteJobAsWritten(second, None, config, run);
    plottingAfter := c.isPlotting;
  }

  /** With the busy guard leaving the state alone, the drawn job keeps running. */
  method BusyRejectionKeepsRunningJob(first: Job, second: Job, config: Object, run: DriverRun)
    returns (plottingBefore: bool, plottingAfter: bool, reply: PlotResult)
    ensures plottingBefore && plottingAfter && reply == Rejected(BusyMessage)
  {
    var c := new PlotterController(map[]);
    c.Accept(first);
    plottingBefore := c.isPlotting;
    reply := c.ExecuteJob(second, None, config, run);
    plottingAfter := c.isPlotting;
  }
}
