/** The evaluation coordinator of the desktop window: the run guard that keeps
    at most one simulation worker alive, the manual lock / unlock cycle of the
    Evaluate button, the LIVE-mode auto-evaluation timer with its auto-pause,
    and the per-view zoom clamp.

    Each slot of `MainWindow` is a method that updates the window's fields
    step by step; its contract ties the new fields to a transition function on
    `WindowState`, the value of all those fields, and the lemmas below state
    what the transitions promise. Worker completion arrives as explicit
    `OnSimulationDone` / `OnSimulationFailed` / `OnSimulationFinished` calls;
    clocks and the side panel's readings are parameters. */
module Coordinator {
  import opened Builtins
  import opened Strings

  const SNAPSHOT := "SNAPSHOT"
  const LIVE := "LIVE"
  const MANUAL_LOCK := "manual_lock"
  const AUTO := "auto"
  /** A run longer than this (seconds) pauses LIVE auto-evaluation. */
  const SLOW_RUN_S := 1.5
  const FAILURE_TEXT_LIMIT := 72

  predicate IsSystemMode(m: string) {
    m == SNAPSHOT || m == LIVE
  }

  /** The one-shot simulation worker: the copied config and the trigger it reports back. */
  datatype Worker = Worker(config: Obj, trigger: string)

  /** The snapshot line of the status strip. `pHitPercent` is None where the
      source's `float(snapshot.get('P_hit', 0.0))` raises while formatting. */
  datatype Status =
    | Ready
    | AlreadyRunning
    | Evaluating(live: bool)
    | Unlocked
    | Locked(pHitPercent: Option<real>)
    | AutoUpdated(pHitPercent: Option<real>)
    | Updated
    | Failed(reason: string)

  /** The value of every field of the window that the core slots read or write.
      `autoTimer` is the running auto-evaluation timer's interval in ms (None
      when stopped); `panelReadOnly` and `panelPaused` are what the window last
      told the side panel; `zoomRange` and `zoomValue` are the zoom widget's. */
  datatype WindowState = WindowState(
    currentMode: string,
    systemMode: string,
    snapshotActive: bool,
    simulationRunning: bool,
    worker: Option<Worker>,
    workersStarted: nat,
    simulationStartedAt: Option<real>,
    lastEvalTime: Option<real>,
    latestSnapshot: Option<Obj>,
    zoomByMode: map<string, real>,
    zoomRange: (real, real),
    zoomValue: real,
    autoEvaluatePaused: bool,
    autoTimer: Option<int>,
    panelReadOnly: bool,
    panelPaused: bool,
    status: Status)

  /** The zoom spin box's range for a view mode. */
  function ZoomBounds(mode: string): (real, real) {
    if mode == "engineering" then (0.6, 1.8) else (0.6, 2.2)
  }

  /** The zoom value shown for a view: the stored zoom (1.0 when none is
      stored) clamped into the view's range. */
  function ShownZoom(mode: string, zoomByMode: map<string, real>): (v: real)
    ensures ZoomBounds(mode).0 <= v <= ZoomBounds(mode).1
    ensures mode in zoomByMode && ZoomBounds(mode).0 <= zoomByMode[mode] <= ZoomBounds(mode).1 ==>
      v == zoomByMode[mode]
    ensures mode !in zoomByMode ==> v == 1.0
    ensures mode in zoomByMode && zoomByMode[mode] > ZoomBounds(mode).1 ==> v == ZoomBounds(mode).1
    ensures mode in zoomByMode && zoomByMode[mode] < ZoomBounds(mode).0 ==> v == ZoomBounds(mode).0
  {
    var (mn, mx) := ZoomBounds(mode);
    var value := if mode in zoomByMode then zoomByMode[mode] else 1.0;
    Max(mn, Min(mx, value))
  }

  /** The facts every reachable window state keeps. */
  predicate Consistent(s: WindowState) {
    // a worker exists exactly while a simulation runs, and only then is a start time recorded
    (s.simulationRunning <==> s.worker.Some?) &&
    (s.simulationRunning <==> s.simulationStartedAt.Some?) &&
    IsSystemMode(s.systemMode) &&
    // the auto-evaluation timer runs only in LIVE mode, at 1 s or 2 s
    (s.autoTimer.Some? ==> s.systemMode == LIVE && (s.autoTimer.value == 1000 || s.autoTimer.value == 2000)) &&
    (s.autoEvaluatePaused ==> s.systemMode == LIVE) &&
    s.panelPaused == s.autoEvaluatePaused &&
    // the side panel is read-only exactly while a snapshot is locked, and a lock needs a snapshot
    s.panelReadOnly == s.snapshotActive &&
    (s.snapshotActive ==> s.latestSnapshot.Some?) &&
    "operator" in s.zoomByMode && "engineering" in s.zoomByMode &&
    s.zoomRange == ZoomBounds(s.currentMode) &&
    s.zoomRange.0 <= s.zoomValue <= s.zoomRange.1
  }

  /** The state `__init__` leaves: the system mode read from the side panel,
      operator view, nothing running, unlocked, timer stopped. */
  function Initial(panelMode: string): (r: WindowState)
    ensures r.currentMode == "operator" && r.systemMode == panelMode && r.status == Ready
    ensures !r.simulationRunning && r.worker.None? && r.workersStarted == 0 && !r.snapshotActive
    ensures r.latestSnapshot.None? && r.autoTimer.None? && !r.autoEvaluatePaused
    ensures r.zoomRange == ZoomBounds("operator") && r.zoomValue == 1.0
  {
    var zoom := map["operator" := 1.0, "engineering" := 1.0];
    WindowState("operator", panelMode, false, false, None, 0, None, None, None,
                zoom, ZoomBounds("operator"), ShownZoom("operator", zoom),
                false, None, false, false, Ready)
  }

  /** `_sync_zoom_widget_from_mode` */
  function SyncZoom(s: WindowState): (r: WindowState)
    ensures r.zoomRange == ZoomBounds(s.currentMode) && r.zoomRange.0 <= r.zoomValue <= r.zoomRange.1
    ensures r.(zoomRange := s.zoomRange, zoomValue := s.zoomValue) == s
  {
    s.(zoomRange := ZoomBounds(s.currentMode), zoomValue := ShownZoom(s.currentMode, s.zoomByMode))
  }

  /** `_set_mode`: switch the view and re-sync the zoom widget. */
  function SetMode(s: WindowState, mode: string): (r: WindowState)
    ensures r.currentMode == mode && r.zoomRange == ZoomBounds(mode)
    ensures ZoomBounds(mode).0 <= r.zoomValue <= ZoomBounds(mode).1
    ensures r.zoomByMode == s.zoomByMode
  {
    SyncZoom(s.(currentMode := mode))
  }

  /** `_on_zoom_changed`: remember the zoom for the current view. */
  function ZoomChanged(s: WindowState, value: real): (r: WindowState)
    ensures r.zoomByMode.Keys == s.zoomByMode.Keys + {s.currentMode} && r.zoomByMode[s.currentMode] == value
    ensures forall m :: m in s.zoomByMode && m != s.currentMode ==> r.zoomByMode[m] == s.zoomByMode[m]
    ensures r.zoomValue == s.zoomValue && r.currentMode == s.currentMode
  {
    s.(zoomByMode := s.zoomByMode[s.currentMode := value])
  }

  /** `_start_simulation` */
  function Start(s: WindowState, trigger: string, config: Obj, now: real): (r: WindowState)
    ensures r.simulationRunning
    ensures !s.simulationRunning ==> r.worker == Some(Worker(config, trigger)) && r.simulationStartedAt == Some(now)
    ensures r.workersStarted == s.workersStarted + (if s.simulationRunning then 0 else 1)
    ensures r.latestSnapshot == s.latestSnapshot && r.snapshotActive == s.snapshotActive && r.status == s.status
  {
    if s.simulationRunning then s
    else s.(simulationRunning := true, simulationStartedAt := Some(now),
            worker := Some(Worker(config, trigger)), workersStarted := s.workersStarted + 1)
  }

  /** `auto_evaluate`: the timer's tick. */
  function AutoEvaluate(s: WindowState, config: Obj, now: real): (r: WindowState)
    ensures r.latestSnapshot == s.latestSnapshot && r.snapshotActive == s.snapshotActive
    ensures r.status == s.status && r.systemMode == s.systemMode && r.autoTimer == s.autoTimer
  {
    if s.systemMode != LIVE || s.autoEvaluatePaused || !s.snapshotActive || s.simulationRunning then s
    else Start(s, AUTO, config, now)
  }

  /** `_on_evaluate_clicked` */
  function EvaluateClicked(s: WindowState, config: Obj, now: real): (r: WindowState)
    ensures r.latestSnapshot == s.latestSnapshot
    ensures r.snapshotActive ==> s.snapshotActive
    ensures s.workersStarted <= r.workersStarted <= s.workersStarted + 1
    ensures r.status == AlreadyRunning <==> s.simulationRunning
  {
    if s.simulationRunning then s.(status := AlreadyRunning)
    else if !s.snapshotActive then
      Start(s.(status := Evaluating(s.systemMode == LIVE)), MANUAL_LOCK, config, now)
    else s.(panelReadOnly := false, snapshotActive := false, status := Unlocked)
  }

  /** `float(snapshot.get('P_hit', 0.0)) * 100.0`, None where `float` raises. */
  function PercentOfHit(snapshot: Obj): (r: Option<real>)
    ensures "P_hit" !in snapshot ==> r == Some(0.0)
    ensures "P_hit" in snapshot && snapshot["P_hit"].Num? ==> r == Some(snapshot["P_hit"].n * 100.0)
  {
    match Float(Get(snapshot, "P_hit", Num(0.0)))
    case Some(p) => Some(p * 100.0)
    case None => None
  }

  /** The auto-pause rule of `_on_simulation_done`: a run that took longer than
      1.5 s in LIVE mode with auto-evaluation on. */
  predicate SlowLiveRun(startedAt: Option<real>, systemMode: string, now: real, autoEvalText: string) {
    startedAt.Some? && Max(0.0, now - startedAt.value) > SLOW_RUN_S &&
    systemMode == LIVE && Upper(autoEvalText) != "OFF"
  }

  /** The status line `_on_simulation_done` shows for a trigger. */
  function DoneStatus(snapshot: Obj, trigger: string): Status {
    if trigger == MANUAL_LOCK then Locked(PercentOfHit(snapshot))
    else if trigger == AUTO then AutoUpdated(PercentOfHit(snapshot))
    else Updated
  }

  /** The auto-pause step of `_on_simulation_done`. */
  function PauseIfSlow(s: WindowState, now: real, autoEvalText: string): (r: WindowState)
    ensures r.autoEvaluatePaused <==> s.autoEvaluatePaused || SlowLiveRun(s.simulationStartedAt, s.systemMode, now, autoEvalText)
    ensures SlowLiveRun(s.simulationStartedAt, s.systemMode, now, autoEvalText) ==> r.autoTimer.None? && r.panelPaused
    ensures !SlowLiveRun(s.simulationStartedAt, s.systemMode, now, autoEvalText) ==> r == s
  {
    if SlowLiveRun(s.simulationStartedAt, s.systemMode, now, autoEvalText)
    then s.(autoEvaluatePaused := true, autoTimer := None, panelPaused := true)
    else s
  }

  /** `_on_simulation_done`; `autoEvalText` is the auto-evaluation combo box's text. */
  function SimulationDone(s: WindowState, snapshot: Obj, trigger: string, now: real,
                          autoEvalText: string): (r: WindowState)
    ensures r.lastEvalTime == Some(now) && r.status == DoneStatus(snapshot, trigger)
    ensures r.systemMode == s.systemMode && r.currentMode == s.currentMode && r.workersStarted == s.workersStarted
  {
    var s1 := PauseIfSlow(s.(latestSnapshot := Some(snapshot), lastEvalTime := Some(now)), now, autoEvalText);
    ShowOutcome(s1, snapshot, trigger)
  }

  /** The trigger-dependent end of `_on_simulation_done`: a "manual_lock" run
      locks the panel and the snapshot; every trigger updates the status line. */
  function ShowOutcome(s: WindowState, snapshot: Obj, trigger: string): (r: WindowState)
    ensures r.status == DoneStatus(snapshot, trigger)
    ensures r.snapshotActive <==> s.snapshotActive || trigger == MANUAL_LOCK
    ensures trigger == MANUAL_LOCK ==> r.panelReadOnly
    ensures r.latestSnapshot == s.latestSnapshot && r.autoTimer == s.autoTimer
  {
    if trigger == MANUAL_LOCK then
      s.(panelReadOnly := true, snapshotActive := true, status := DoneStatus(snapshot, trigger))
    else s.(status := DoneStatus(snapshot, trigger))
  }

  /** `(error or "unknown error").strip()[:72]` */
  function FailureReason(error: string): (r: string)
    ensures |r| <= FAILURE_TEXT_LIMIT
    ensures error == "" ==> r == "unknown error"
  {
    var short := Strip(if error == "" then "unknown error" else error);
    if |short| <= FAILURE_TEXT_LIMIT then short else short[..FAILURE_TEXT_LIMIT]
  }

  /** `_on_simulation_failed`: only the status line changes. */
  function SimulationFailed(s: WindowState, error: string): (r: WindowState)
    ensures r.status.Failed? && |r.status.reason| <= FAILURE_TEXT_LIMIT
    ensures error == "" ==> r.status == Failed("unknown error")
  {
    s.(status := Failed(FailureReason(error)))
  }

  /** `_on_simulation_finished`: the worker is gone and the guard is released. */
  function SimulationFinished(s: WindowState): (r: WindowState)
    ensures !r.simulationRunning && r.worker.None? && r.simulationStartedAt.None?
    ensures r.latestSnapshot == s.latestSnapshot && r.snapshotActive == s.snapshotActive
    ensures r.workersStarted == s.workersStarted && r.status == s.status
  {
    s.(simulationRunning := false, simulationStartedAt := None, worker := None)
  }

  /** `str(mode or "SNAPSHOT").strip().upper()` */
  function RawMode(mode: string): string {
    Norm(if mode == "" then SNAPSHOT else mode)
  }

  /** The mode `_on_system_mode_changed` settles on: by the "LIVE" / "SNAP"
      prefix of the normalised text, else the side panel's own mode when that
      is a system mode, else SNAPSHOT. */
  function NextSystemMode(mode: string, panelMode: string): (m: string)
    ensures IsSystemMode(m)
    ensures StartsWith(RawMode(mode), "LIVE") ==> m == LIVE
    ensures (!StartsWith(RawMode(mode), "LIVE") && StartsWith(RawMode(mode), "SNAP")) ==> m == SNAPSHOT
    ensures (!StartsWith(RawMode(mode), "LIVE") && !StartsWith(RawMode(mode), "SNAP")) ==>
      m == (if IsSystemMode(panelMode) then panelMode else SNAPSHOT)
  {
    var raw := RawMode(mode);
    if StartsWith(raw, "LIVE") then LIVE
    else if StartsWith(raw, "SNAP") then SNAPSHOT
    else if IsSystemMode(panelMode) then panelMode
    else SNAPSHOT
  }

  /** `_on_system_mode_changed`; `panelMode` is the side panel's `system_mode()`. */
  function SystemModeChanged(s: WindowState, mode: string, panelMode: string): (r: WindowState)
    ensures r.systemMode == NextSystemMode(mode, panelMode) && !r.autoEvaluatePaused && !r.panelPaused
    ensures r.systemMode == LIVE ==> r.autoTimer == s.autoTimer
    ensures r.latestSnapshot == s.latestSnapshot && r.snapshotActive == s.snapshotActive
    ensures r.simulationRunning == s.simulationRunning
  {
    var next := NextSystemMode(mode, panelMode);
    s.(systemMode := next, autoEvaluatePaused := false, panelPaused := false,
       autoTimer := if next != LIVE then None else s.autoTimer)
  }

  /** `_on_auto_eval_changed`: "OFF", "1S" or "2S" after strip/upper; other text changes nothing. */
  function AutoEvalChanged(s: WindowState, value: string): (r: WindowState)
    ensures s.systemMode == LIVE && Norm(value) == "1S" ==> r.autoTimer == Some(1000)
    ensures s.systemMode == LIVE && Norm(value) == "2S" ==> r.autoTimer == Some(2000)
    ensures Norm(value) == "OFF" ==> r.autoTimer.None?
    ensures s.systemMode == LIVE && Norm(value) == "OFF" ==> !r.autoEvaluatePaused
    ensures r.systemMode == s.systemMode && r.snapshotActive == s.snapshotActive
    ensures r.simulationRunning == s.simulationRunning && r.latestSnapshot == s.latestSnapshot
  {
    if s.systemMode != LIVE then s.(autoTimer := None)
    else
      var v := Norm(value);
      if v == "OFF" then s.(autoTimer := None, autoEvaluatePaused := false, panelPaused := false)
      else if v == "1S" then s.(autoTimer := Some(1000), panelPaused := s.autoEvaluatePaused)
      else if v == "2S" then s.(autoTimer := Some(2000), panelPaused := s.autoEvaluatePaused)
      else s
  }

  class MainWindow {
    var currentMode: string
    var systemMode: string
    var snapshotActive: bool
    var simulationRunning: bool
    var worker: Option<Worker>
    var workersStarted: nat
    var simulationStartedAt: Option<real>
    var lastEvalTime: Option<real>
    var latestSnapshot: Option<Obj>
    var zoomByMode: map<string, real>
    var zoomRange: (real, real)
    var zoomValue: real
    var autoEvaluatePaused: bool
    var autoTimer: Option<int>
    var panelReadOnly: bool
    var panelPaused: bool
    var status: Status

    ghost function State(): WindowState
      reads this
    {
      WindowState(currentMode, systemMode, snapshotActive, simulationRunning, worker,
                  workersStarted, simulationStartedAt, lastEvalTime, latestSnapshot,
                  zoomByMode, zoomRange, zoomValue, autoEvaluatePaused, autoTimer,
                  panelReadOnly, panelPaused, status)
    }

    ghost predicate Valid()
      reads this
    {
      Consistent(State())
    }

    /** `panelMode` is the side panel's `system_mode()`, which is always
        SNAPSHOT or LIVE. */
    constructor (panelMode: string)
      requires IsSystemMode(panelMode)
      ensures State() == Initial(panelMode)
      ensures Valid()
    {
      currentMode := "operator";
      systemMode := panelMode;
      snapshotActive := false;
      simulationRunning := false;
      worker := None;
      workersStarted := 0;
      simulationStartedAt := None;
      lastEvalTime := None;
      latestSnapshot := None;
      zoomByMode := map["operator" := 1.0, "engineering" := 1.0];
      autoEvaluatePaused := false;
      autoTimer := None;
      panelReadOnly := false;
      panelPaused := false;
      status := Ready;
      new;
      SyncZoomWidgetFromMode();
    }

    method SyncZoomWidgetFromMode()
      modifies this
      ensures State() == SyncZoom(old(State()))
    {
      var mn, mx;
      if currentMode == "engineering" {
        mn, mx := 0.6, 1.8;
      } else {
        mn, mx := 0.6, 2.2;
      }
      var value := if currentMode in zoomByMode then zoomByMode[currentMode] else 1.0;
      value := Max(mn, Min(mx, value));
      zoomRange := (mn, mx);
      zoomValue := value;
    }

    method SetViewMode(mode: string)
      modifies this
      ensures State() == SetMode(old(State()), mode)
    {
      currentMode := mode;
      SyncZoomWidgetFromMode();
    }

    method OnZoomChanged(value: real)
      modifies this
      ensures State() == ZoomChanged(old(State()), value)
    {
      zoomByMode := zoomByMode[currentMode := value];
    }

    method StartSimulation(trigger: string, config: Obj, now: real)
      modifies this
      ensures State() == Start(old(State()), trigger, config, now)
    {
      if simulationRunning {
        return;
      }
      simulationRunning := true;
      simulationStartedAt := Some(now);
      worker := Some(Worker(config, trigger));
      workersStarted := workersStarted + 1;
    }

    method OnAutoEvaluate(config: Obj, now: real)
      modifies this
      ensures State() == AutoEvaluate(old(State()), config, now)
    {
      if systemMode != LIVE {
        return;
      }
      if autoEvaluatePaused {
        return;
      }
      if !snapshotActive {
        return;
      }
      if simulationRunning {
        return;
      }
      StartSimulation(AUTO, config, now);
    }

    method OnEvaluateClicked(config: Obj, now: real)
      modifies this
      ensures State() == EvaluateClicked(old(State()), config, now)
    {
      if simulationRunning {
        status := AlreadyRunning;
        return;
      }
      if !snapshotActive {
        status := Evaluating(systemMode == LIVE);
        StartSimulation(MANUAL_LOCK, config, now);
        return;
      }
      // Unlock only; no simulation is started.
      panelReadOnly := false;
      snapshotActive := false;
      status := Unlocked;
    }

    method OnSimulationDone(snapshot: Obj, trigger: string, now: real, autoEvalText: string)
      modifies this
      ensures State() == SimulationDone(old(State()), snapshot, trigger, now, autoEvalText)
    {
      latestSnapshot := Some(snapshot);
      lastEvalTime := Some(now);
      PauseAutoEvaluateIfSlow(now, autoEvalText);
      ShowSimulationOutcome(snapshot, trigger);
    }

    method ShowSimulationOutcome(snapshot: Obj, trigger: string)
      modifies this
      ensures State() == ShowOutcome(old(State()), snapshot, trigger)
    {
      if trigger == MANUAL_LOCK {
        panelReadOnly := true;
        snapshotActive := true;
      }
      status := DoneStatus(snapshot, trigger);
    }

    method PauseAutoEvaluateIfSlow(now: real, autoEvalText: string)
      modifies this
      ensures State() == PauseIfSlow(old(State()), now, autoEvalText)
    {
      if SlowLiveRun(simulationStartedAt, systemMode, now, autoEvalText) {
        autoEvaluatePaused := true;
        autoTimer := None;
        panelPaused := true;
      }
    }

    method OnSimulationFailed(error: string)
      modifies this
      ensures State() == SimulationFailed(old(State()), error)
    {
      status := Failed(FailureReason(error));
    }

    method OnSimulationFinished()
      modifies this
      ensures State() == SimulationFinished(old(State()))
    {
      simulationRunning := false;
      simulationStartedAt := None;
      if worker.Some? {
        worker := None;
      }
    }

    method OnSystemModeChanged(mode: string, panelMode: string)
      modifies this
      ensures State() == SystemModeChanged(old(State()), mode, panelMode)
    {
      var nextMode := NextSystemMode(mode, panelMode);
      systemMode := nextMode;
      autoEvaluatePaused := false;
      panelPaused := false;
      if nextMode != LIVE {
        autoTimer := None;
      }
    }

    method OnAutoEvalChanged(value: string)
      modifies this
      ensures State() == AutoEvalChanged(old(State()), value)
    {
      if systemMode != LIVE {
        autoTimer := None;
        return;
      }
      var valueNorm := Norm(value);
      if valueNorm == "OFF" {
        autoTimer := None;
        autoEvaluatePaused := false;
        panelPaused := false;
        return;
      }
      if valueNorm == "1S" {
        autoTimer := Some(1000);
        panelPaused := autoEvaluatePaused;
        return;
      }
      if valueNorm == "2S" {
        autoTimer := Some(2000);
        panelPaused := autoEvaluatePaused;
      }
    }
  }

  // ---------------------------------------------------------------------------
  // What the transitions promise.

  lemma InitialIsConsistent(panelMode: string)
    requires IsSystemMode(panelMode)
    ensures Consistent(Initial(panelMode))
    ensures !Initial(panelMode).simulationRunning && !Initial(panelMode).snapshotActive
  {
  }

  /** The run-guard slots keep the window consistent. */
  lemma RunSlotsKeepConsistent(s: WindowState, trigger: string, config: Obj, now: real)
    requires Consistent(s)
    ensures Consistent(Start(s, trigger, config, now))
    ensures Consistent(AutoEvaluate(s, config, now))
    ensures Consistent(SimulationFinished(s))
  {
  }

  lemma ClickKeepsConsistent(s: WindowState, config: Obj, now: real)
    requires Consistent(s)
    ensures Consistent(EvaluateClicked(s, config, now))
  {
  }

  lemma CompletionKeepsConsistent(s: WindowState, snapshot: Obj, trigger: string, now: real,
                                  autoEvalText: string)
    requires Consistent(s)
    ensures Consistent(SimulationDone(s, snapshot, trigger, now, autoEvalText))
  {
  }

  lemma FailureKeepsConsistent(s: WindowState, error: string)
    requires Consistent(s)
    ensures Consistent(SimulationFailed(s, error))
  {
  }

  lemma ModeChangeKeepsConsistent(s: WindowState, mode: string, panelMode: string)
    requires Consistent(s)
    ensures Consistent(SystemModeChanged(s, mode, panelMode))
  {
  }

  lemma AutoEvalChangeKeepsConsistent(s: WindowState, value: string)
    requires Consistent(s)
    ensures Consistent(AutoEvalChanged(s, value))
  {
    var v := Norm(value);
    if s.systemMode != LIVE {
      assert AutoEvalChanged(s, value) == s.(autoTimer := None);
    } else if v == "OFF" {
      assert AutoEvalChanged(s, value) == s.(autoTimer := None, autoEvaluatePaused := false, panelPaused := false);
    } else if v == "1S" || v == "2S" {
      assert AutoEvalChanged(s, value).autoTimer.Some?;
    } else {
      assert AutoEvalChanged(s, value) == s;
    }
  }

  lemma ZoomSlotsKeepConsistent(s: WindowState, mode: string, zoom: real)
    requires Consistent(s)
    ensures Consistent(SetMode(s, mode))
    ensures Consistent(ZoomChanged(s, zoom))
  {
  }

  /** While a simulation runs, neither a start request, a timer tick nor an
      Evaluate click starts another worker; the click only reports it. */
  lemma NoSecondRunWhileRunning(s: WindowState, trigger: string, config: Obj, now: real)
    requires s.simulationRunning
    ensures Start(s, trigger, config, now) == s
    ensures AutoEvaluate(s, config, now) == s
    ensures EvaluateClicked(s, config, now) == s.(status := AlreadyRunning)
  {
  }

  /** A start request on an idle window starts exactly one worker carrying the
      given config and trigger. */
  lemma StartLaunchesOneWorker(s: WindowState, trigger: string, config: Obj, now: real)
    requires !s.simulationRunning
    ensures var t := Start(s, trigger, config, now);
      t.simulationRunning && t.worker == Some(Worker(config, trigger)) &&
      t.workersStarted == s.workersStarted + 1 && t.latestSnapshot == s.latestSnapshot &&
      t.snapshotActive == s.snapshotActive
  {
  }

  /** After a run starts, the next run is admitted only once the worker has
      finished: a second request before `finished` is ignored, and one after
      it starts a new worker. */
  lemma NextRunOnlyAfterFinish(s: WindowState, t1: string, c1: Obj, n1: real,
                               t2: string, c2: Obj, n2: real)
    requires Consistent(s) && !s.simulationRunning
    ensures var running := Start(s, t1, c1, n1);
      Start(running, t2, c2, n2).workersStarted == s.workersStarted + 1 &&
      Start(SimulationFinished(running), t2, c2, n2).workersStarted == s.workersStarted + 2 &&
      Start(SimulationFinished(running), t2, c2, n2).worker == Some(Worker(c2, t2))
  {
    var running := Start(s, t1, c1, n1);
    assert running.simulationRunning;
    assert !SimulationFinished(running).simulationRunning;
  }

  /** A timer tick starts an "auto" run exactly when the window is in LIVE
      mode, not paused, locked on a snapshot and idle. */
  lemma AutoEvaluateAdmission(s: WindowState, config: Obj, now: real)
    ensures var t := AutoEvaluate(s, config, now);
      (t.workersStarted == s.workersStarted + 1 <==>
        s.systemMode == LIVE && !s.autoEvaluatePaused && s.snapshotActive && !s.simulationRunning)
    ensures var t := AutoEvaluate(s, config, now);
      t.workersStarted != s.workersStarted ==> t.worker == Some(Worker(config, AUTO))
    ensures var t := AutoEvaluate(s, config, now);
      t.workersStarted == s.workersStarted ==> t == s
  {
  }

  /** An Evaluate click on an idle, unlocked window starts a "manual_lock"
      run; on an idle, locked window it only unlocks. */
  lemma EvaluateClickLockCycle(s: WindowState, config: Obj, now: real)
    requires !s.simulationRunning
    ensures !s.snapshotActive ==>
      EvaluateClicked(s, config, now).worker == Some(Worker(config, MANUAL_LOCK)) &&
      EvaluateClicked(s, config, now).workersStarted == s.workersStarted + 1
    ensures s.snapshotActive ==>
      !EvaluateClicked(s, config, now).snapshotActive &&
      !EvaluateClicked(s, config, now).simulationRunning &&
      EvaluateClicked(s, config, now).workersStarted == s.workersStarted &&
      EvaluateClicked(s, config, now).latestSnapshot == s.latestSnapshot
  {
  }

  /** Completion replaces the latest snapshot wholesale; a "manual_lock" run
      locks the window, any other trigger leaves the lock as it was. */
  lemma CompletionStoresSnapshot(s: WindowState, snapshot: Obj, trigger: string, now: real,
                                 autoEvalText: string)
    ensures var t := SimulationDone(s, snapshot, trigger, now, autoEvalText);
      t.latestSnapshot == Some(snapshot) &&
      (trigger == MANUAL_LOCK ==> t.snapshotActive && t.panelReadOnly) &&
      (trigger != MANUAL_LOCK ==> t.snapshotActive == s.snapshotActive) &&
      t.simulationRunning == s.simulationRunning && t.worker == s.worker
  {
  }

  /** Auto-evaluation becomes paused, with the timer stopped, exactly on a slow
      LIVE run with auto-evaluation on; otherwise pause flag and timer stay. */
  lemma AutoPauseRule(s: WindowState, snapshot: Obj, trigger: string, now: real, autoEvalText: string)
    ensures var t := SimulationDone(s, snapshot, trigger, now, autoEvalText);
      (SlowLiveRun(s.simulationStartedAt, s.systemMode, now, autoEvalText) ==> t.autoEvaluatePaused && t.autoTimer.None?) &&
      (!SlowLiveRun(s.simulationStartedAt, s.systemMode, now, autoEvalText) ==>
        t.autoEvaluatePaused == s.autoEvaluatePaused && t.autoTimer == s.autoTimer)
  {
  }

  /** A failure changes neither the latest snapshot, the lock nor the guard;
      only the status line reports it. */
  lemma FailureKeepsSnapshot(s: WindowState, error: string)
    ensures SimulationFailed(s, error).(status := s.status) == s
    ensures SimulationFailed(s, error).status.Failed?
  {
  }

  /** Finishing releases the run guard and drops the worker, and touches nothing else. */
  lemma FinishReleasesGuard(s: WindowState)
    ensures var t := SimulationFinished(s);
      !t.simulationRunning && t.worker.None? &&
      t.(simulationRunning := s.simulationRunning, simulationStartedAt := s.simulationStartedAt,
         worker := s.worker) == s
  {
  }

  /** A mode change always clears the pause flag; outside LIVE it stops the timer. */
  lemma ModeChangeClearsPause(s: WindowState, mode: string, panelMode: string)
    ensures var t := SystemModeChanged(s, mode, panelMode);
      !t.autoEvaluatePaused && IsSystemMode(t.systemMode) &&
      (t.systemMode != LIVE ==> t.autoTimer.None?)
  {
  }

  /** The selector's LIVE item selects LIVE mode. */
  lemma LiveTextSelectsLive(panelMode: string)
    ensures NextSystemMode(LIVE, panelMode) == LIVE
  {
    NormOfCanonical(LIVE);
    assert StartsWith(RawMode(LIVE), "LIVE");
  }

  /** The selector's SNAPSHOT item, and an empty text, select SNAPSHOT mode. */
  lemma SnapshotTextSelectsSnapshot(panelMode: string)
    ensures NextSystemMode(SNAPSHOT, panelMode) == SNAPSHOT
    ensures NextSystemMode("", panelMode) == SNAPSHOT
  {
    assert SNAPSHOT[0] == 'S' && SNAPSHOT[7] == 'T';
    NormOfCanonical(SNAPSHOT);
    assert RawMode("") == RawMode(SNAPSHOT) == SNAPSHOT;
    assert SNAPSHOT[..4] == "SNAP";
    assert !StartsWith(SNAPSHOT, "LIVE") by {
      assert SNAPSHOT[0] != "LIVE"[0];
    }
  }

  /** Outside LIVE mode the auto-evaluation selector only stops the timer. */
  lemma AutoEvalIgnoredOutsideLive(s: WindowState, value: string)
    requires s.systemMode != LIVE
    ensures AutoEvalChanged(s, value) == s.(autoTimer := None)
  {
  }

  /** A double click on Evaluate starts one run, and the second click only
      reports that a run is in progress. */
  method DoubleClickStartsOneRun(config: Obj, now: real) returns (runs: nat, status: Status)
    ensures runs == 1 && status == AlreadyRunning
  {
    var w := new MainWindow(SNAPSHOT);
    w.OnEvaluateClicked(config, now);
    w.OnEvaluateClicked(config, now);
    runs, status := w.workersStarted, w.status;
  }

  /** A run, its completion and its finish lock the window on the new snapshot
      and release the guard, after which a click unlocks without running. */
  method LockThenUnlock(config: Obj, snapshot: Obj, t0: real, t1: real)
    returns (locked: bool, runs: nat, latest: Option<Obj>)
    ensures !locked && runs == 1 && latest == Some(snapshot)
  {
    var w := new MainWindow(SNAPSHOT);
    w.OnEvaluateClicked(config, t0);
    w.OnSimulationDone(snapshot, MANUAL_LOCK, t1, "OFF");
    w.OnSimulationFinished();
    assert w.snapshotActive && !w.simulationRunning;
    w.OnEvaluateClicked(config, t1);
    locked, runs, latest := w.snapshotActive, w.workersStarted, w.latestSnapshot;
  }
}
