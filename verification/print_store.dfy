/** The print panel: print settings with their clamping and layout rules, the
    submit / poll life cycle of a print job, and the poll timers it starts. */
module PrintStore {
  import opened Util
  import JsNumber

  datatype PageLayout = A4Portrait | A4Landscape | A3Portrait | A3Landscape | Custom
  datatype OutputFormat = Pdf | Png
  datatype PrintStatus = Idle | Preparing | Processing | Ready | Failed

  /** Millimetres. */
  datatype PageSize = PageSize(width: real, height: real)

  datatype Settings = Settings(layout: PageLayout, pageSize: PageSize, scale: real, outputFormat: OutputFormat)

  datatype PrintJob = PrintJob(id: string, statusUrl: string, downloadUrl: string)

  /** The store's state together with the interval timers that are still
      registered: `timers` maps each live timer to its own poll counter, and
      `pollInterval` is the one timer the store remembers (and can clear). */
  datatype PrintState = PrintState(
    isOpen: bool,
    settings: Settings,
    status: PrintStatus,
    job: Option<PrintJob>,
    error: Option<string>,
    timers: map<nat, nat>,
    pollInterval: Option<nat>,
    nextTimer: nat)

  const MinScale: real := 100.0
  const MaxScale: real := 100000.0
  const MinPageSize: real := 50.0
  const MaxPageSize: real := 1000.0
  const MaxPollAttempts: nat := 120

  /** `PAGE_SIZES`. */
  function PresetSize(layout: PageLayout): (p: PageSize)
    requires layout != Custom
    ensures MinPageSize <= p.width <= MaxPageSize && MinPageSize <= p.height <= MaxPageSize
  {
    match layout
    case A4Portrait => PageSize(210.0, 297.0)
    case A4Landscape => PageSize(297.0, 210.0)
    case A3Portrait => PageSize(297.0, 420.0)
    case A3Landscape => PageSize(420.0, 297.0)
  }

  /** Each landscape size is its portrait size turned by a quarter. */
  lemma LandscapeIsPortraitTurned()
    ensures PresetSize(A4Landscape) == PageSize(PresetSize(A4Portrait).height, PresetSize(A4Portrait).width)
    ensures PresetSize(A3Landscape) == PageSize(PresetSize(A3Portrait).height, PresetSize(A3Portrait).width)
    ensures PresetSize(A4Portrait).width < PresetSize(A4Portrait).height
    ensures PresetSize(A3Portrait).width < PresetSize(A3Portrait).height
  {
  }

  const DefaultSettings := Settings(A4Portrait, PageSize(210.0, 297.0), 2500.0, Pdf)

  const Initial := PrintState(false, DefaultSettings, Idle, None, None, map[], None, 0)

  // -------------------------------------------------------------------------
  // Settings

  /** The settings invariant: scale and page size within their bounds, and a
      preset layout shows its preset size. */
  predicate SettingsValid(st: Settings) {
    && MinScale <= st.scale <= MaxScale
    && MinPageSize <= st.pageSize.width <= MaxPageSize
    && MinPageSize <= st.pageSize.height <= MaxPageSize
    && (st.layout != Custom ==> st.pageSize == PresetSize(st.layout))
  }

  /** `setLayout`: a preset layout brings its page size; `custom` keeps the size. */
  function SetLayout(s: PrintState, layout: PageLayout): (r: PrintState)
    ensures r.settings.layout == layout
    ensures layout == Custom ==> r.settings.pageSize == s.settings.pageSize
    ensures layout != Custom ==> r.settings.pageSize == PresetSize(layout)
    ensures r == s.(settings := r.settings)
    ensures r.settings == s.settings.(layout := layout, pageSize := r.settings.pageSize)
  {
    var pageSize := if layout == Custom then s.settings.pageSize else PresetSize(layout);
    s.(settings := s.settings.(layout := layout, pageSize := pageSize))
  }

  /** `setPageSize`: each side clamped to [50, 1000] mm; the layout becomes `custom`. */
  function SetPageSize(s: PrintState, size: PageSize): (r: PrintState)
    ensures r.settings.layout == Custom
    ensures MinPageSize <= r.settings.pageSize.width <= MaxPageSize
    ensures MinPageSize <= r.settings.pageSize.height <= MaxPageSize
    ensures MinPageSize <= size.width <= MaxPageSize ==> r.settings.pageSize.width == size.width
    ensures MinPageSize <= size.height <= MaxPageSize ==> r.settings.pageSize.height == size.height
    ensures size.width < MinPageSize ==> r.settings.pageSize.width == MinPageSize
    ensures size.width > MaxPageSize ==> r.settings.pageSize.width == MaxPageSize
    ensures size.height < MinPageSize ==> r.settings.pageSize.height == MinPageSize
    ensures size.height > MaxPageSize ==> r.settings.pageSize.height == MaxPageSize
    ensures r == s.(settings := r.settings)
    ensures r.settings == s.settings.(layout := Custom, pageSize := r.settings.pageSize)
  {
    var clamped := PageSize(JsNumber.Clamp(MinPageSize, MaxPageSize, size.width),
                            JsNumber.Clamp(MinPageSize, MaxPageSize, size.height));
    s.(settings := s.settings.(layout := Custom, pageSize := clamped))
  }

  /** `setScale`: clamped to [100, 100000]. */
  function SetScale(s: PrintState, scale: real): (r: PrintState)
    ensures MinScale <= r.settings.scale <= MaxScale
    ensures MinScale <= scale <= MaxScale ==> r.settings.scale == scale
    ensures scale < MinScale ==> r.settings.scale == MinScale
    ensures scale > MaxScale ==> r.settings.scale == MaxScale
    ensures r == s.(settings := s.settings.(scale := r.settings.scale))
  {
    s.(settings := s.settings.(scale := JsNumber.Clamp(MinScale, MaxScale, scale)))
  }

  /** `setOutputFormat`: only the format changes. */
  function SetOutputFormat(s: PrintState, format: OutputFormat): (r: PrintState)
    ensures r.settings.outputFormat == format
    ensures r == s.(settings := s.settings.(outputFormat := format))
  {
    s.(settings := s.settings.(outputFormat := format))
  }

  function Open(s: PrintState): (r: PrintState)
    ensures r.isOpen && r == s.(isOpen := true)
  {
    s.(isOpen := true)
  }

  /** `stopPolling`: clears the remembered timer, if any. Other timers keep running. */
  function StopPolling(s: PrintState): (r: PrintState)
    ensures r.pollInterval.None?
    ensures s.pollInterval.Some? ==> r.timers == s.timers - {s.pollInterval.value}
    ensures s.pollInterval.None? ==> r.timers == s.timers
    ensures r == s.(timers := r.timers, pollInterval := None)
  {
    match s.pollInterval
    case None => s
    case Some(t) => s.(timers := s.timers - {t}, pollInterval := None)
  }

  /** `close`: stops polling and forgets the job; settings are kept. */
  function Close(s: PrintState): (r: PrintState)
    ensures !r.isOpen && r.status == Idle && r.job.None? && r.error.None?
    ensures r.settings == s.settings
    ensures r.pollInterval.None?
    ensures r.timers == StopPolling(s).timers
  {
    StopPolling(s).(isOpen := false, status := Idle, job := None, error := None)
  }

  /** `reset`: stops polling and restores every default. */
  function Reset(s: PrintState): (r: PrintState)
    ensures r.isOpen == Initial.isOpen && r.settings == DefaultSettings && r.status == Idle
    ensures r.job.None? && r.error.None? && r.pollInterval.None?
    ensures r.timers == StopPolling(s).timers
    ensures r.timers == map[] ==> r == Initial.(nextTimer := s.nextTimer)
  {
    StopPolling(s).(isOpen := false, settings := DefaultSettings, status := Idle, job := None, error := None)
  }

  lemma DefaultSettingsValid()
    ensures SettingsValid(DefaultSettings)
    ensures DefaultSettings.pageSize == PresetSize(A4Portrait)
  {
  }

  // -------------------------------------------------------------------------
  // The print request

  datatype Bbox = Bbox(minX: real, minY: real, maxX: real, maxY: real)

  datatype PrintRequest = PrintRequest(
    bbox: Bbox,
    srs: int,
    scale: real,
    outputFormat: OutputFormat,
    mimetype: string,
    pageLayout: PageLayout,
    pageSize: seq<real>,
    layers: seq<string>,
    opacities: map<string, real>,
    drawFeatures: Option<string>)

  function Mimetype(format: OutputFormat): (m: string)
    ensures m == "application/pdf" <==> format == Pdf
    ensures m == "image/png" <==> format == Png
  {
    assert "application/pdf"[0] != "image/png"[0];
    match format
    case Pdf => "application/pdf"
    case Png => "image/png"
  }

  /** The body `submitPrint` posts: the settings read before the request, the
      page size as `[width, height]`, and the drawing only when it is non-empty.
      The drawing is kept as the text the caller passed. */
  function BuildRequest(st: Settings, bbox: Bbox, layers: seq<string>, opacities: map<string, real>,
                        srs: int, drawFeatures: Option<string>): (q: PrintRequest)
    ensures q.scale == st.scale && q.outputFormat == st.outputFormat && q.pageLayout == st.layout
    ensures q.pageSize == [st.pageSize.width, st.pageSize.height]
    ensures q.mimetype == Mimetype(st.outputFormat)
    ensures q.bbox == bbox && q.srs == srs && q.layers == layers && q.opacities == opacities
    ensures q.drawFeatures.Some? <==> drawFeatures.Some? && drawFeatures.value != ""
  {
    var draw := if drawFeatures.Some? && drawFeatures.value != "" then drawFeatures else None;
    PrintRequest(bbox, srs, st.scale, st.outputFormat, Mimetype(st.outputFormat), st.layout,
                 [st.pageSize.width, st.pageSize.height], layers, opacities, draw)
  }

  /** `statusURL.split('/').slice(-2)[0]`: the second-to-last path segment, or
      the whole URL when it has no `/`. */
  function JobId(statusUrl: string): (id: string)
    ensures '/' !in id
    ensures '/' !in statusUrl ==> id == statusUrl
  {
    var parts := Split(statusUrl, '/');
    if |parts| >= 2 then parts[|parts| - 2] else
      assert parts == [statusUrl] by { SplitAtFirst(statusUrl, '/', ""); }
      parts[0]
  }

  /** The job id read back from a status URL of the form the export service
      hands out is the job reference it was built from. */
  lemma JobIdOfStatusUrl(jobRef: string)
    requires '/' !in jobRef
    ensures JobId("/export/map/" + jobRef + "/status") == jobRef
  {
    assert Split(jobRef, '/') == [jobRef] by { SplitAtFirst(jobRef, '/', ""); }
    assert Split("status", '/') == ["status"] by { SplitAtFirst("status", '/', ""); }
    var head := "/export/map";
    var prefix := head + ['/'] + jobRef;
    var url := "/export/map/" + jobRef + "/status";
    assert url == prefix + ['/'] + "status";
    SplitConcat(prefix, '/', "status");
    SplitConcat(head, '/', jobRef);
    var parts := Split(url, '/');
    assert parts == Split(head, '/') + [jobRef] + ["status"];
  }

  // -------------------------------------------------------------------------
  // Submitting and polling

  /** What the POST to the export service came back with. */
  datatype SubmitOutcome =
    | Accepted(statusUrl: string, downloadUrl: string)
    | HttpError(status: nat)
    | Thrown(message: Option<string>)

  /** What one poll of the status URL came back with. */
  datatype PollOutcome = Finished(downloadUrl: string) | JobError | InProcess | PollThrew

  /** The synchronous start of `submitPrint`. */
  function BeginSubmit(s: PrintState): (r: PrintState)
    ensures r.status == Preparing && r.error.None?
    ensures r == s.(status := Preparing, error := None)
  {
    s.(status := Preparing, error := None)
  }

  /** The message of the error `submitPrint` catches. */
  function SubmitErrorMessage(outcome: SubmitOutcome): (m: string)
    requires !outcome.Accepted?
    ensures outcome.HttpError? ==> m == "Print request failed: " + NatToString(outcome.status)
    ensures outcome.Thrown? && outcome.message.None? ==> m == "Unbekannter Fehler"
    ensures outcome.Thrown? && outcome.message.Some? ==> m == outcome.message.value
  {
    match outcome
    case HttpError(status) => "Print request failed: " + NatToString(status)
    case Thrown(message) => message.GetOr("Unbekannter Fehler")
  }

  /** A failed submit: the error is shown; no job, no timer. */
  function SubmitFailed(s: PrintState, outcome: SubmitOutcome): (r: PrintState)
    requires !outcome.Accepted?
    ensures r.status == Failed && r.error == Some(SubmitErrorMessage(outcome))
    ensures r == s.(status := Failed, error := r.error)
  {
    s.(status := Failed, error := Some(SubmitErrorMessage(outcome)))
  }

  function NewJob(statusUrl: string, downloadUrl: string): (j: PrintJob)
    ensures j.id == JobId(statusUrl) && j.statusUrl == statusUrl && j.downloadUrl == downloadUrl
  {
    PrintJob(JobId(statusUrl), statusUrl, downloadUrl)
  }

  /** An accepted submit, as the code is written: the job is recorded and a new
      interval timer is registered and remembered, but a timer that was still
      running is not cleared first. */
  function SubmitAcceptedAsWritten(s: PrintState, statusUrl: string, downloadUrl: string): (r: PrintState)
    requires s.nextTimer !in s.timers
    ensures r.status == Processing && r.job == Some(NewJob(statusUrl, downloadUrl))
    ensures r.pollInterval == Some(s.nextTimer)
    ensures r.timers == s.timers[s.nextTimer := 0]
    ensures r.nextTimer > s.nextTimer
  {
    s.(status := Processing, job := Some(NewJob(statusUrl, downloadUrl)),
       timers := s.timers[s.nextTimer := 0], pollInterval := Some(s.nextTimer), nextTimer := s.nextTimer + 1)
  }

  /** An accepted submit with the running timer cleared before the new one is
      started: afterwards the new timer is the only one. */
  function SubmitAccepted(s: PrintState, statusUrl: string, downloadUrl: string): (r: PrintState)
    requires s.nextTimer !in s.timers
    ensures r.status == Processing && r.job == Some(NewJob(statusUrl, downloadUrl))
    ensures r.pollInterval == Some(s.nextTimer)
    ensures r.timers == StopPolling(s).timers[s.nextTimer := 0]
    ensures r.nextTimer > s.nextTimer
  {
    SubmitAcceptedAsWritten(StopPolling(s), statusUrl, downloadUrl)
  }

  /** One firing of timer `t`. A timer that is not registered does not fire.
      The counter is the timer's own; `stopPolling` inside the callback clears
      whichever timer the store remembers. */
  function Tick(s: PrintState, t: nat, outcome: PollOutcome): (r: PrintState)
    ensures t !in s.timers ==> r == s
    ensures t in s.timers && s.job.None? ==> r == StopPolling(s.(timers := s.timers[t := s.timers[t] + 1]))
    ensures t in s.timers && s.job.Some? && s.timers[t] + 1 >= MaxPollAttempts ==>
      r.status == Failed && r.error == Some("Zeitüberschreitung: Druckauftrag dauert zu lange") && r.pollInterval.None?
    ensures t in s.timers && s.job.Some? && s.timers[t] + 1 < MaxPollAttempts ==>
      match outcome
      case Finished(url) => r.status == Ready && r.job == Some(s.job.value.(downloadUrl := url)) && r.pollInterval.None?
      case JobError => r.status == Failed && r.error == Some("Druckauftrag fehlgeschlagen") && r.pollInterval.None?
      case PollThrew => r.status == Failed && r.error == Some("Statusabfrage fehlgeschlagen") && r.pollInterval.None?
      case InProcess => r == s.(timers := s.timers[t := s.timers[t] + 1])
    ensures r.settings == s.settings && r.isOpen == s.isOpen && r.nextTimer == s.nextTimer
    ensures r.timers.Keys <= s.timers.Keys
  {
    if t !in s.timers then s
    else
      var count := s.timers[t] + 1;
      var s1 := s.(timers := s.timers[t := count]);
      if s1.job.None? then StopPolling(s1)
      else if count >= MaxPollAttempts then
        StopPolling(s1).(status := Failed, error := Some("Zeitüberschreitung: Druckauftrag dauert zu lange"))
      else
        match outcome
        case Finished(url) => StopPolling(s1).(status := Ready, job := Some(s1.job.value.(downloadUrl := url)))
        case JobError => StopPolling(s1).(status := Failed, error := Some("Druckauftrag fehlgeschlagen"))
        case PollThrew => StopPolling(s1).(status := Failed, error := Some("Statusabfrage fehlgeschlagen"))
        case InProcess => s1
  }

  // -------------------------------------------------------------------------
  // Every operation of the panel

  datatype PrintOp =
    | OpenOp
    | CloseOp
    | ResetOp
    | SetLayoutOp(layout: PageLayout)
    | SetPageSizeOp(size: PageSize)
    | SetScaleOp(scale: real)
    | SetOutputFormatOp(format: OutputFormat)
    | BeginSubmitOp
    | SubmitDone(outcome: SubmitOutcome)
    | TickOp(timer: nat, poll: PollOutcome)

  /** Timer ids are fresh: every registered id is below the next one. */
  predicate FreshIds(s: PrintState) {
    forall t | t in s.timers :: t < s.nextTimer
  }

  function Apply(s: PrintState, op: PrintOp, corrected: bool): PrintState
    requires FreshIds(s)
  {
    match op
    case OpenOp => Open(s)
    case CloseOp => Close(s)
    case ResetOp => Reset(s)
    case SetLayoutOp(l) => SetLayout(s, l)
    case SetPageSizeOp(p) => SetPageSize(s, p)
    case SetScaleOp(x) => SetScale(s, x)
    case SetOutputFormatOp(f) => SetOutputFormat(s, f)
    case BeginSubmitOp => BeginSubmit(s)
    case SubmitDone(outcome) =>
      if !outcome.Accepted? then SubmitFailed(s, outcome)
      else if corrected then SubmitAccepted(s, outcome.statusUrl, outcome.downloadUrl)
      else SubmitAcceptedAsWritten(s, outcome.statusUrl, outcome.downloadUrl)
    case TickOp(t, poll) => Tick(s, t, poll)
  }

  lemma ApplyKeepsFreshIds(s: PrintState, op: PrintOp, corrected: bool)
    requires FreshIds(s)
    ensures FreshIds(Apply(s, op, corrected))
  {
  }

  function Run(s: PrintState, ops: seq<PrintOp>, corrected: bool): PrintState
    requires FreshIds(s)
    decreases |ops|
  {
    if |ops| == 0 then s
    else
      ApplyKeepsFreshIds(s, ops[0], corrected);
      Run(Apply(s, ops[0], corrected), ops[1..], corrected)
  }

  /** The settings stay within their bounds, and preset layouts keep their
      preset size, whatever the panel does. */
  lemma ApplyKeepsSettingsValid(s: PrintState, op: PrintOp, corrected: bool)
    requires FreshIds(s) && SettingsValid(s.settings)
    ensures SettingsValid(Apply(s, op, corrected).settings)
  {
  }

  lemma {:induction false} RunKeepsSettingsValid(s: PrintState, ops: seq<PrintOp>, corrected: bool)
    requires FreshIds(s) && SettingsValid(s.settings)
    ensures SettingsValid(Run(s, ops, corrected).settings)
    decreases |ops|
  {
    if |ops| > 0 {
      ApplyKeepsFreshIds(s, ops[0], corrected);
      ApplyKeepsSettingsValid(s, ops[0], corrected);
      RunKeepsSettingsValid(Apply(s, ops[0], corrected), ops[1..], corrected);
    }
  }

  /** The timer invariant of the corrected store: the only timer that can still
      fire is the one the store remembers, and it has fired fewer than 120 times. */
  predicate TimersTracked(s: PrintState) {
    && FreshIds(s)
    && (forall t | t in s.timers :: s.pollInterval == Some(t))
    && (forall t | t in s.timers :: s.timers[t] < MaxPollAttempts)
  }

  lemma ApplyKeepsTimersTracked(s: PrintState, op: PrintOp)
    requires TimersTracked(s)
    ensures TimersTracked(Apply(s, op, true))
  {
    if op.TickOp? && op.timer in s.timers {
      assert s.pollInterval == Some(op.timer);
    }
  }

  lemma {:induction false} RunKeepsTimersTracked(s: PrintState, ops: seq<PrintOp>)
    requires TimersTracked(s)
    ensures TimersTracked(Run(s, ops, true))
    decreases |ops|
  {
    if |ops| > 0 {
      ApplyKeepsTimersTracked(s, ops[0]);
      RunKeepsTimersTracked(Apply(s, ops[0], true), ops[1..]);
    }
  }

  /** In the corrected store, closing or resetting the panel leaves no timer
      running, from any reachable state. */
  lemma CorrectedCloseStopsEverything(ops: seq<PrintOp>)
    ensures FreshIds(Initial)
    ensures Close(Run(Initial, ops, true)).timers == map[]
    ensures Reset(Run(Initial, ops, true)).timers == map[]
  {
    RunKeepsTimersTracked(Initial, ops);
  }

  /** Steps through a sequence of operations one at a time. */
  lemma RunCons(s: PrintState, op: PrintOp, rest: seq<PrintOp>, corrected: bool)
    requires FreshIds(s)
    ensures FreshIds(Apply(s, op, corrected))
    ensures Run(s, [op] + rest, corrected) == Run(Apply(s, op, corrected), rest, corrected)
  {
    ApplyKeepsFreshIds(s, op, corrected);
    assert ([op] + rest)[1..] == rest;
  }

  /** As written, two accepted submits in a row leave both timers registered,
      with only the second remembered. */
  lemma AsWrittenDoubleSubmit(a: string, b: string)
    ensures var ops := [BeginSubmitOp, SubmitDone(Accepted(a, a)), BeginSubmitOp, SubmitDone(Accepted(b, b))];
      && FreshIds(Initial)
      && var s := Run(Initial, ops, false);
         && s.timers == map[0 := 0, 1 := 0] && s.pollInterval == Some(1) && s.nextTimer == 2
         && s.job == Some(NewJob(b, b)) && s.status == Processing
  {
    var s1 := Apply(Initial, BeginSubmitOp, false);
    var s2 := Apply(s1, SubmitDone(Accepted(a, a)), false);
    var s3 := Apply(s2, BeginSubmitOp, false);
    var s4 := Apply(s3, SubmitDone(Accepted(b, b)), false);
    assert s2.timers == map[0 := 0] && s2.nextTimer == 1;
    assert s4.timers == map[0 := 0, 1 := 0] && s4.pollInterval == Some(1);
    RunCons(s4, BeginSubmitOp, [], false);
    assert Run(s4, [], false) == s4;
    RunCons(s3, SubmitDone(Accepted(b, b)), [], false);
    RunCons(s2, BeginSubmitOp, [SubmitDone(Accepted(b, b))], false);
    RunCons(s1, SubmitDone(Accepted(a, a)), [BeginSubmitOp, SubmitDone(Accepted(b, b))], false);
    RunCons(Initial, BeginSubmitOp, [SubmitDone(Accepted(a, a)), BeginSubmitOp, SubmitDone(Accepted(b, b))], false);
  }

  /** A run extended by one more operation. */
  lemma {:induction false} RunSnoc(s: PrintState, ops: seq<PrintOp>, op: PrintOp, corrected: bool)
    requires FreshIds(s)
    ensures FreshIds(Run(s, ops, corrected))
    ensures Run(s, ops + [op], corrected) == Apply(Run(s, ops, corrected), op, corrected)
    decreases |ops|
  {
    if |ops| == 0 {
      assert ops + [op] == [op] + [];
      RunCons(s, op, [], corrected);
    } else {
      assert ops + [op] == [ops[0]] + (ops[1..] + [op]);
      RunCons(s, ops[0], ops[1..] + [op], corrected);
      RunSnoc(Apply(s, ops[0], corrected), ops[1..], op, corrected);
    }
  }

  /** As written, closing the panel after the double submit leaves the first
      timer registered and no longer remembered: nothing can clear it. */
  lemma AsWrittenLeaksTimer(a: string, b: string)
    ensures var ops := [BeginSubmitOp, SubmitDone(Accepted(a, a)), BeginSubmitOp, SubmitDone(Accepted(b, b)), CloseOp];
      FreshIds(Initial) && 0 in Run(Initial, ops, false).timers && Run(Initial, ops, false).pollInterval.None?
  {
    var ops := [BeginSubmitOp, SubmitDone(Accepted(a, a)), BeginSubmitOp, SubmitDone(Accepted(b, b))];
    AsWrittenDoubleSubmit(a, b);
    RunSnoc(Initial, ops, CloseOp, false);
    assert ops + [CloseOp] == [BeginSubmitOp, SubmitDone(Accepted(a, a)), BeginSubmitOp, SubmitDone(Accepted(b, b)), CloseOp];
  }

  /** As written, after the double submit the first timer's "finished" poll
      clears the second timer instead of itself, and stays registered. */
  lemma AsWrittenFinishClearsOtherTimer(a: string, b: string)
    ensures var ops := [BeginSubmitOp, SubmitDone(Accepted(a, a)), BeginSubmitOp, SubmitDone(Accepted(b, b)),
                        TickOp(0, Finished(b))];
      && FreshIds(Initial)
      && var s := Run(Initial, ops, false);
         && s.status == Ready && s.timers == map[0 := 1] && s.pollInterval.None?
         && s.job.Some? && s.job.value.downloadUrl == b
  {
    var ops := [BeginSubmitOp, SubmitDone(Accepted(a, a)), BeginSubmitOp, SubmitDone(Accepted(b, b))];
    AsWrittenDoubleSubmit(a, b);
    RunSnoc(Initial, ops, TickOp(0, Finished(b)), false);
    assert ops + [TickOp(0, Finished(b))] == [BeginSubmitOp, SubmitDone(Accepted(a, a)), BeginSubmitOp,
                                              SubmitDone(Accepted(b, b)), TickOp(0, Finished(b))];
    var s4 := Run(Initial, ops, false);
    assert s4.timers[0 := 1] - {1} == map[0 := 1];
  }

  /** `n` firings of timer `t` that all report the job finished. */
  function TicksFinished(s: PrintState, t: nat, url: string, n: nat): PrintState
    decreases n
  {
    if n == 0 then s else TicksFinished(Tick(s, t, Finished(url)), t, url, n - 1)
  }

  /** A forgotten timer polling a finished job only counts up. */
  lemma {:induction false} StaleTicksCount(s: PrintState, t: nat, url: string, n: nat)
    requires t in s.timers && s.pollInterval.None? && s.status == Ready
    requires s.job.Some? && s.job.value.downloadUrl == url
    requires s.timers[t] + n < MaxPollAttempts
    ensures TicksFinished(s, t, url, n) == s.(timers := s.timers[t := s.timers[t] + n])
    decreases n
  {
    if n > 0 {
      var s1 := Tick(s, t, Finished(url));
      assert s1 == s.(timers := s.timers[t := s.timers[t] + 1]);
      StaleTicksCount(s1, t, url, n - 1);
      assert s1.timers[t := s1.timers[t] + (n - 1)] == s.timers[t := s.timers[t] + n];
    }
  }

  /** ... and that forgotten timer keeps polling the ready job; on its 120th
      firing it marks the job as timed out. */
  lemma AsWrittenStaleTimerFailsReadyJob(a: string, b: string)
    ensures var ops := [BeginSubmitOp, SubmitDone(Accepted(a, a)), BeginSubmitOp, SubmitDone(Accepted(b, b)),
                        TickOp(0, Finished(b))];
      && FreshIds(Initial)
      && var late := TicksFinished(Run(Initial, ops, false), 0, b, MaxPollAttempts - 1);
         late.status == Failed && late.error == Some("Zeitüberschreitung: Druckauftrag dauert zu lange")
  {
    AsWrittenFinishClearsOtherTimer(a, b);
    var s5 := Run(Initial, [BeginSubmitOp, SubmitDone(Accepted(a, a)), BeginSubmitOp, SubmitDone(Accepted(b, b)),
                            TickOp(0, Finished(b))], false);
    StaleTicksCount(s5, 0, b, MaxPollAttempts - 2);
    TicksSplit(s5, 0, b, MaxPollAttempts - 2);
    var s6 := TicksFinished(s5, 0, b, MaxPollAttempts - 2);
    assert s6.timers == map[0 := MaxPollAttempts - 1];
  }

  lemma {:induction false} TicksSplit(s: PrintState, t: nat, url: string, n: nat)
    ensures TicksFinished(s, t, url, n + 1) == Tick(TicksFinished(s, t, url, n), t, Finished(url))
    decreases n
  {
    if n > 0 {
      TicksSplit(Tick(s, t, Finished(url)), t, url, n - 1);
    }
  }
}
