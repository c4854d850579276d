// The auto-compile service of UnityAgentSkills: AutoCompileConfigProvider (validation and the
// stored configuration) and AutoCompileController (the status machine over the file monitor
// services, the queue of changed files and the debounce timer).
//
// PathUtils.GetFullPath, Directory.Exists, the editor clock, EditorApplication.isCompiling and
// whether the editor window has focus are inputs. A file monitor service is its directory and
// whether its watcher raises events; the changes it reports are delivered by FileChanged.
module AutoCompile {
  import opened Wrappers
  import opened Text

  /** AutoCompileController.Status. */
  datatype Status = Stopped | Running | Paused | Pending | Compiling

  /** AutoCompileConfig; the list of watch paths and each of its entries may be null. */
  datatype Config = Config(isEnabled: bool, debounceInterval: int, watchPaths: Option<seq<Option<string>>>)

  /** `new AutoCompileConfig()`: disabled, 500 ms, watching "Assets". */
  const DefaultConfig := Config(false, 500, Some([Some("Assets")]))

  const MinDebounceMs := 200
  const MaxDebounceMs := 5000

  /** The file system as the service sees it: Path.GetFullPath under the project, and Directory.Exists. */
  datatype Env = Env(resolve: string -> string, dirExists: string -> bool)

  /** PathUtils.GetFullPath: a null or blank path stands for "Assets". */
  function GetFullPath(path: Option<string>, env: Env): (r: string)
    ensures path.None? || IsBlank(path.value) ==> r == env.resolve("Assets")
    ensures path.Some? && !IsBlank(path.value) ==> r == env.resolve(path.value)
  {
    if path.None? || IsBlank(path.value) then env.resolve("Assets") else env.resolve(path.value)
  }

  /** A watch path ValidateConfig counts: not blank, naming an existing directory. */
  predicate Watchable(path: Option<string>, env: Env)
  {
    path.Some? && !IsBlank(path.value) && env.dirExists(GetFullPath(path, env))
  }

  /** validPathCount after the loop of ValidateConfig over the first paths. */
  function ValidPathCount(paths: seq<Option<string>>, env: Env): (n: nat)
    ensures n <= |paths|
    decreases |paths|
  {
    if paths == [] then 0
    else ValidPathCount(paths[..|paths| - 1], env) + (if Watchable(paths[|paths| - 1], env) then 1 else 0)
  }

  /** The count is zero exactly when no path is watchable. */
  lemma {:induction false} ValidPathCountZero(paths: seq<Option<string>>, env: Env)
    ensures ValidPathCount(paths, env) == 0 <==> forall k :: 0 <= k < |paths| ==> !Watchable(paths[k], env)
    decreases |paths|
  {
    if paths != [] {
      var init := paths[..|paths| - 1];
      ValidPathCountZero(init, env);
      assert forall k :: 0 <= k < |init| ==> init[k] == paths[k];
    }
  }

  /** Why ValidateConfig rejects a configuration, in the order it checks. */
  datatype ConfigError = NullConfig | DebounceOutOfRange(value: int) | NoWatchPaths | NoValidWatchPath

  /** ValidateConfig's verdict: None when the configuration is valid. */
  function Validation(config: Option<Config>, env: Env): Option<ConfigError>
  {
    if config.None? then Some(NullConfig)
    else if config.value.debounceInterval < MinDebounceMs || config.value.debounceInterval > MaxDebounceMs then
      Some(DebounceOutOfRange(config.value.debounceInterval))
    else if config.value.watchPaths.None? || |config.value.watchPaths.value| == 0 then Some(NoWatchPaths)
    else if ValidPathCount(config.value.watchPaths.value, env) == 0 then Some(NoValidWatchPath)
    else None
  }

  /** A valid configuration: present, a debounce in [200, 5000] ms, and a watchable path. */
  predicate ValidConfig(config: Option<Config>, env: Env)
  {
    && config.Some?
    && MinDebounceMs <= config.value.debounceInterval <= MaxDebounceMs
    && config.value.watchPaths.Some?
    && exists k :: 0 <= k < |config.value.watchPaths.value| && Watchable(config.value.watchPaths.value[k], env)
  }

  /** Validation accepts exactly the valid configurations; a null one is rejected first. */
  lemma ValidationMeansValid(config: Option<Config>, env: Env)
    ensures Validation(config, env).None? <==> ValidConfig(config, env)
    ensures Validation(config, env) == Some(NullConfig) <==> config.None?
  {
    if config.Some? && config.value.watchPaths.Some? {
      ValidPathCountZero(config.value.watchPaths.value, env);
    }
  }

  /** The error message ValidateConfig reports for each rejection; never empty. */
  function ErrorMessage(e: ConfigError): (m: string)
    ensures m != ""
  {
    match e
    case NullConfig => "config is null"
    case DebounceOutOfRange(v) => "debounce interval must be 200-5000 ms, got: " + IntToString(v)
    case NoWatchPaths => "watch path list is empty"
    case NoValidWatchPath => "no valid watch path, add at least one existing directory"
  }

  /** ValidateConfig, with its counting loop. */
  method ValidateConfig(config: Option<Config>, env: Env) returns (ok: bool, errorMessage: string)
    ensures ok <==> Validation(config, env).None?
    ensures errorMessage == (if ok then "" else ErrorMessage(Validation(config, env).value))
  {
    errorMessage := "";
    if config.None? {
      errorMessage := ErrorMessage(NullConfig);
      return false, errorMessage;
    }
    var c := config.value;
    if c.debounceInterval < MinDebounceMs || c.debounceInterval > MaxDebounceMs {
      errorMessage := ErrorMessage(DebounceOutOfRange(c.debounceInterval));
      return false, errorMessage;
    }
    if c.watchPaths.None? || |c.watchPaths.value| == 0 {
      errorMessage := ErrorMessage(NoWatchPaths);
      return false, errorMessage;
    }
    var paths := c.watchPaths.value;
    var validPathCount := 0;
    var i := 0;
    while i < |paths|
      invariant 0 <= i <= |paths|
      invariant validPathCount == ValidPathCount(paths[..i], env)
    {
      assert paths[..i + 1][..i] == paths[..i];
      if paths[i].Some? && !IsBlank(paths[i].value) {
        var fullPath := GetFullPath(paths[i], env);
        if env.dirExists(fullPath) {
          validPathCount := validPathCount + 1;
        }
      }
      i := i + 1;
    }
    assert paths[..|paths|] == paths;
    if validPathCount == 0 {
      errorMessage := ErrorMessage(NoValidWatchPath);
      return false, errorMessage;
    }
    ok := true;
  }

  /** The message is empty exactly when the configuration is valid. */
  lemma MessageEmptyIffValid(config: Option<Config>, env: Env)
    ensures var v := Validation(config, env);
            (if v.None? then "" else ErrorMessage(v.value)) == "" <==> ValidConfig(config, env)
  {
    ValidationMeansValid(config, env);
  }

  /**
   * LoadConfig: no stored text gives the default configuration, and so does text that
   * JsonUtility cannot read (`decoded` is None); otherwise the decoded configuration.
   */
  function LoadConfig(stored: string, decoded: Option<Config>): (c: Config)
    ensures stored == "" || decoded.None? ==> c == DefaultConfig
    ensures stored != "" && decoded.Some? ==> c == decoded.value
  {
    if stored == "" then DefaultConfig else decoded.GetOr(DefaultConfig)
  }

  /** The default configuration is valid exactly when the project's Assets directory exists. */
  lemma DefaultConfigValid(env: Env)
    ensures ValidConfig(Some(DefaultConfig), env) <==> env.dirExists(env.resolve("Assets"))
  {
    ValidationMeansValid(Some(DefaultConfig), env);
    assert !IsBlank("Assets") by { assert "Assets"[0] == 'A'; }
    var paths := DefaultConfig.watchPaths.value;
    assert paths[..0] == [];
    assert ValidPathCount(paths, env) == ValidPathCount(paths[..0], env) + (if Watchable(paths[0], env) then 1 else 0);
  }

  /** A FileMonitorService: the directory it watches and whether its watcher raises events. */
  datatype MonitorService = MonitorService(path: string, raising: bool)

  /** The editor's play mode transitions. */
  datatype PlayModeChange = EnteredEditMode | ExitingEditMode | EnteredPlayMode | ExitingPlayMode

  /**
   * The controller's static state; `events` are the OnStatusChanged notifications so far and
   * `refreshes` the AssetDatabase.Refresh calls.
   */
  datatype ControllerState = ControllerState(status: Status, events: seq<Status>, config: Option<Config>,
                                             services: seq<MonitorService>, changedFiles: seq<string>,
                                             debounceEndTime: real, isInitialized: bool, refreshes: nat)

  const InitialState := ControllerState(Stopped, [], None, [], [], 0.0, false, 0)

  /** SetStatus: a new status is stored and announced; the same status changes nothing. */
  function WithStatus(st: ControllerState, s: Status): ControllerState
  {
    if st.status == s then st else st.(status := s, events := st.events + [s])
  }

  /** The services StartService creates for the given watch paths, each watching. */
  function StartedServices(paths: seq<Option<string>>, env: Env): (r: seq<MonitorService>)
    ensures |r| <= |paths|
    ensures forall k :: 0 <= k < |r| ==> r[k].raising && env.dirExists(r[k].path)
    decreases |paths|
  {
    if paths == [] then []
    else
      var init := StartedServices(paths[..|paths| - 1], env);
      var fullPath := GetFullPath(paths[|paths| - 1], env);
      if env.dirExists(fullPath) then init + [MonitorService(fullPath, true)] else init
  }

  /** StartService. */
  function StartServiceOf(st: ControllerState, env: Env): ControllerState
  {
    if |st.services| > 0 || st.config.None? then st
    else if Validation(st.config, env).Some? then WithStatus(st, Stopped)
    else
      var started := StartedServices(st.config.value.watchPaths.value, env);
      WithStatus(st.(services := started), if |started| > 0 then Running else Stopped)
  }

  /** StopService. */
  function StopServiceOf(st: ControllerState): ControllerState
  {
    if |st.services| == 0 then st else WithStatus(st.(services := []), Stopped)
  }

  /**
   * UpdateConfig, parameterised by the statuses in which the old watchers are stopped first:
   * as written only Running and Pending, intended also Compiling.
   */
  function UpdateConfigWith(st: ControllerState, newConfig: Option<Config>, env: Env, stopWhenCompiling: bool): (r: ControllerState)
    ensures newConfig.None? || Validation(newConfig, env).Some? ==> r == st
    ensures newConfig.Some? && Validation(newConfig, env).None? ==>
              && r.config == newConfig
              && (!newConfig.value.isEnabled ==> r.status == Stopped)
    ensures newConfig.Some? && Validation(newConfig, env).None? && !newConfig.value.isEnabled
            && (st.status == Running || st.status == Pending || (stopWhenCompiling && st.status == Compiling)) ==>
              r.services == []
    ensures newConfig.Some? && Validation(newConfig, env).None? && |st.services| > 0
            && !(st.status == Running || st.status == Pending || (stopWhenCompiling && st.status == Compiling)) ==>
              r.services == st.services
  {
    if newConfig.None? || Validation(newConfig, env).Some? then st
    else
      var wasRunning := st.status == Running || st.status == Pending || (stopWhenCompiling && st.status == Compiling);
      var st1 := if wasRunning then StopServiceOf(st) else st;
      var st2 := st1.(config := newConfig);
      if newConfig.value.isEnabled then StartServiceOf(st2, env) else WithStatus(st2, Stopped)
  }

  /**
   * UpdateConfig as written: it agrees with the corrected update except on a compiling
   * controller, whose old watchers it keeps.
   */
  function UpdateConfigAsWritten(st: ControllerState, newConfig: Option<Config>, env: Env): (r: ControllerState)
    ensures st.status != Compiling ==> r == UpdateConfigOf(st, newConfig, env)
    ensures newConfig.Some? && Validation(newConfig, env).None? && st.status == Compiling && |st.services| > 0 ==>
              r.services == st.services
  {
    UpdateConfigWith(st, newConfig, env, false)
  }

  /** UpdateConfig with a compiling controller's watchers stopped too. */
  function UpdateConfigOf(st: ControllerState, newConfig: Option<Config>, env: Env): (r: ControllerState)
    ensures newConfig.None? || Validation(newConfig, env).Some? ==> r == st
    ensures newConfig.Some? && Validation(newConfig, env).None? ==>
              && r.config == newConfig
              && (!newConfig.value.isEnabled ==> r.status == Stopped)
    ensures newConfig.Some? && Validation(newConfig, env).None? && !newConfig.value.isEnabled
            && (st.status == Running || st.status == Pending || st.status == Compiling) ==>
              r.services == []
  {
    UpdateConfigWith(st, newConfig, env, true)
  }

  /** Initialize (subscribing to the editor's callbacks is not modelled). */
  function InitializeOf(st: ControllerState, config: Option<Config>, env: Env): ControllerState
  {
    if config.None? then WithStatus(st, Stopped)
    else
      var st1 := st.(config := config, isInitialized := true);
      if config.value.isEnabled then StartServiceOf(st1, env) else WithStatus(st1, Stopped)
  }

  /** Shutdown. */
  function ShutdownOf(st: ControllerState): ControllerState
  {
    WithStatus(StopServiceOf(st).(config := None, isInitialized := false), Stopped)
  }

  /** What one editor update observes. */
  datatype Tick = Tick(now: real, isCompiling: bool, isApplicationActive: bool)

  /** Whether OnUpdate does anything at all. */
  predicate UpdateGate(st: ControllerState)
  {
    st.config.Some? && st.config.value.isEnabled && |st.services| > 0 && st.status != Paused
  }

  /** The drain of the changed-file queue: a change starts (or restarts) the debounce. */
  function DrainChanges(st: ControllerState, now: real, debounceMs: int): ControllerState
  {
    if st.changedFiles == [] then st
    else WithStatus(st.(changedFiles := []), Pending).(debounceEndTime := now + (debounceMs as real) / 1000.0)
  }

  /** The end of the debounce: back to Running, and a refresh while the editor is unfocused. */
  function EndDebounce(st: ControllerState, t: Tick): ControllerState
  {
    if st.status == Pending && t.now >= st.debounceEndTime then
      var st1 := WithStatus(st.(debounceEndTime := 0.0), Running);
      if !t.isApplicationActive then WithStatus(st1.(refreshes := st1.refreshes + 1), Compiling) else st1
    else st
  }

  /** OnUpdate: the compile state, then the drain of changes, then the end of the debounce. */
  function OnUpdateOf(st: ControllerState, t: Tick): ControllerState
  {
    if !UpdateGate(st) then st
    else if t.isCompiling then WithStatus(st, Compiling)
    else
      var st1 := if st.status == Compiling then WithStatus(st, Running) else st;
      EndDebounce(DrainChanges(st1, t.now, st.config.value.debounceInterval), t)
  }

  /** Every service with its watcher switched on or off. */
  function WithRaising(ss: seq<MonitorService>, raising: bool): (r: seq<MonitorService>)
    ensures |r| == |ss|
    ensures forall k :: 0 <= k < |r| ==> r[k] == ss[k].(raising := raising)
    decreases |ss|
  {
    if ss == [] then [] else WithRaising(ss[..|ss| - 1], raising) + [ss[|ss| - 1].(raising := raising)]
  }

  lemma WithRaisingStep(ss: seq<MonitorService>, i: nat, raising: bool)
    requires i < |ss|
    ensures WithRaising(ss[..i + 1], raising) == WithRaising(ss[..i], raising) + [ss[i].(raising := raising)]
  {
    assert ss[..i + 1][..i] == ss[..i];
  }

  /** OnPlayModeStateChanged. */
  function PlayModeOf(st: ControllerState, change: PlayModeChange): ControllerState
  {
    if st.config.None? || !st.config.value.isEnabled then st
    else if change == ExitingEditMode && st.status in {Running, Pending, Compiling} then
      WithStatus(st.(services := WithRaising(st.services, false)), Paused)
    else if change == EnteredEditMode && st.status == Paused then
      WithStatus(st.(services := WithRaising(st.services, true)), Running)
    else st
  }

  /** A watcher's change notification reaches the queue only while the watcher raises events. */
  function FileChangedOf(st: ControllerState, service: nat, path: string): ControllerState
    requires service < |st.services|
  {
    if st.services[service].raising then st.(changedFiles := st.changedFiles + [path]) else st
  }

  /**
   * The controller's invariant: every notification was a change, the last one is the current
   * status, and only a stopped controller may have no services.
   */
  predicate Inv(st: ControllerState)
  {
    EventsInv(st) && (st.status != Stopped ==> |st.services| > 0)
  }

  predicate EventsInv(st: ControllerState)
  {
    && (forall k :: 0 < k < |st.events| ==> st.events[k - 1] != st.events[k])
    && (if st.events == [] then st.status == Stopped else st.events[0] != Stopped && st.events[|st.events| - 1] == st.status)
  }

  lemma InitialInv()
    ensures Inv(InitialState)
  {
  }

  /** SetStatus announces exactly the changes of status, and keeps the announcements consistent. */
  lemma WithStatusEvents(st: ControllerState, s: Status)
    requires EventsInv(st) && (s != Stopped ==> |st.services| > 0)
    ensures var st' := WithStatus(st, s);
            && st'.status == s
            && (st.status == s <==> st' == st)
            && (st.status != s ==> st'.events == st.events + [s])
            && Inv(st')
  {
  }

  /** StartService is idempotent. */
  lemma StartServiceIdempotent(st: ControllerState, env: Env)
    ensures StartServiceOf(StartServiceOf(st, env), env) == StartServiceOf(st, env)
  {
  }

  /**
   * StartService from no services under a valid configuration: one watching service per
   * existing directory among the watch paths, and Running exactly when there is one.
   */
  lemma StartServiceRunningIff(st: ControllerState, env: Env)
    requires Inv(st) && |st.services| == 0 && st.config.Some?
    ensures var st' := StartServiceOf(st, env);
            && Inv(st')
            && (st'.status == Running <==> |st'.services| > 0)
            && (st'.status == Running || st'.status == Stopped)
            && (Validation(st.config, env).Some? ==> st'.services == [])
            && (forall k :: 0 <= k < |st'.services| ==> st'.services[k].raising && env.dirExists(st'.services[k].path))
  {
    if Validation(st.config, env).None? {
      var started := StartedServices(st.config.value.watchPaths.value, env);
      WithStatusEvents(st.(services := started), if |started| > 0 then Running else Stopped);
    }
  }

  /** StopService leaves no services; it announces Stopped only if there were some. */
  lemma StopServiceStops(st: ControllerState)
    requires Inv(st)
    ensures var st' := StopServiceOf(st);
            && st'.services == [] && Inv(st')
            && (|st.services| > 0 ==> st'.status == Stopped)
            && (|st.services| == 0 ==> st' == st)
  {
    if |st.services| > 0 {
      WithStatusEvents(st.(services := []), Stopped);
    }
  }

  /** An invalid new configuration is ignored entirely. */
  lemma InvalidConfigIgnored(st: ControllerState, newConfig: Option<Config>, env: Env)
    requires !ValidConfig(newConfig, env)
    ensures UpdateConfigOf(st, newConfig, env) == st
  {
    ValidationMeansValid(newConfig, env);
  }

  /**
   * As written, a new configuration that arrives while the project compiles keeps the old
   * watchers: StartService finds services and returns, so the new watch paths are never
   * watched. Here "Assets" is watched, the new configuration names only "Scripts", and after
   * the update the controller still watches "Assets" alone.
   */
  lemma UpdateWhileCompilingKeepsOldWatchers(env: Env)
    requires env.resolve("Assets") != env.resolve("Scripts")
    requires env.dirExists(env.resolve("Assets")) && env.dirExists(env.resolve("Scripts"))
    ensures var before := MonitorService(env.resolve("Assets"), true);
            var st := ControllerState(Compiling, [Running, Compiling], Some(DefaultConfig.(isEnabled := true)),
                                      [before], [], 0.0, true, 0);
            var newConfig := Some(Config(true, 500, Some([Some("Scripts")])));
            && Inv(st) && ValidConfig(newConfig, env)
            && UpdateConfigAsWritten(st, newConfig, env).services == [before]
            && StartedServices(newConfig.value.watchPaths.value, env) == [MonitorService(env.resolve("Scripts"), true)]
  {
    var newConfig := Some(Config(true, 500, Some([Some("Scripts")])));
    var paths := newConfig.value.watchPaths.value;
    assert !IsBlank("Scripts") by { assert "Scripts"[0] == 'S'; }
    assert paths[..0] == [];
    assert Watchable(paths[0], env);
    ValidationMeansValid(newConfig, env);
  }

  /**
   * Corrected, a valid enabled configuration replaces the watchers of a live or stopped
   * controller with exactly those of its own watch paths.
   */
  lemma UpdateConfigRewatches(st: ControllerState, newConfig: Option<Config>, env: Env)
    requires Inv(st) && ValidConfig(newConfig, env) && newConfig.value.isEnabled
    requires st.status != Paused && (st.status == Stopped ==> st.services == [])
    ensures var st' := UpdateConfigOf(st, newConfig, env);
            && st'.services == StartedServices(newConfig.value.watchPaths.value, env)
            && (st'.status == Running <==> st'.services != [])
  {
    ValidationMeansValid(newConfig, env);
    StopServiceStops(st);
    var st1 := if st.status != Stopped then StopServiceOf(st) else st;
    StartServiceRunningIff(st1.(config := newConfig), env);
  }

  /** A valid new configuration is adopted, and the controller ends Running or Stopped. */
  lemma ValidConfigAdopted(st: ControllerState, newConfig: Option<Config>, env: Env)
    requires Inv(st) && ValidConfig(newConfig, env) && st.status != Paused
    ensures var st' := UpdateConfigOf(st, newConfig, env);
            && st'.config == newConfig && Inv(st')
            && (st'.status == Running || st'.status == Stopped)
            && (!newConfig.value.isEnabled ==> st'.status == Stopped)
  {
    ValidationMeansValid(newConfig, env);
    var st1 := if st.status == Running || st.status == Pending || st.status == Compiling then StopServiceOf(st) else st;
    StopServiceStops(st);
    var st2 := st1.(config := newConfig);
    if newConfig.value.isEnabled {
      if |st2.services| == 0 {
        StartServiceRunningIff(st2, env);
      }
    } else {
      WithStatusEvents(st2, Stopped);
    }
  }

  /**
   * Pending changes are drained and start the debounce, which ends no earlier than the
   * configured interval from now.
   */
  lemma ChangesStartDebounce(st: ControllerState, t: Tick)
    requires Inv(st) && UpdateGate(st) && !t.isCompiling && st.changedFiles != []
    requires st.config.value.debounceInterval > 0
    ensures var st' := OnUpdateOf(st, t);
            && st'.changedFiles == [] && st'.status == Pending && Inv(st')
            && st'.debounceEndTime == t.now + (st.config.value.debounceInterval as real) / 1000.0
            && st'.refreshes == st.refreshes
  {
    var st1 := if st.status == Compiling then WithStatus(st, Running) else st;
    WithStatusEvents(st, Running);
    WithStatusEvents(st1.(changedFiles := []), Pending);
  }

  /**
   * Once the debounce has run out with no new change, the controller returns to Running; if
   * the editor is not focused it refreshes the assets once and goes to Compiling.
   */
  lemma DebounceElapsed(st: ControllerState, t: Tick)
    requires Inv(st) && UpdateGate(st) && !t.isCompiling && st.changedFiles == []
    requires st.status == Pending && t.now >= st.debounceEndTime
    ensures var st' := OnUpdateOf(st, t);
            && Inv(st') && st'.debounceEndTime == 0.0
            && (t.isApplicationActive ==> st'.status == Running && st'.refreshes == st.refreshes)
            && (!t.isApplicationActive ==> st'.status == Compiling && st'.refreshes == st.refreshes + 1)
  {
    WithStatusEvents(st.(debounceEndTime := 0.0), Running);
    var st3 := WithStatus(st.(debounceEndTime := 0.0), Running);
    WithStatusEvents(st3.(refreshes := st3.refreshes + 1), Compiling);
  }

  /** Without a change the debounce never ends early, and the assets are refreshed only when it ends. */
  lemma NoRefreshBeforeDebounce(st: ControllerState, t: Tick)
    requires UpdateGate(st) && st.changedFiles == [] && st.status == Pending && t.now < st.debounceEndTime
    ensures OnUpdateOf(st, t).refreshes == st.refreshes
    ensures !t.isCompiling ==> OnUpdateOf(st, t) == st
  {
  }

  /**
   * Leaving edit mode pauses a live controller and switches every watcher off; entering edit
   * mode resumes a paused one and switches them on again.
   */
  lemma PlayModePausesAndResumes(st: ControllerState, change: PlayModeChange)
    requires Inv(st) && st.config.Some? && st.config.value.isEnabled
    ensures var st' := PlayModeOf(st, change);
            && Inv(st') && |st'.services| == |st.services|
            && (change == ExitingEditMode && st.status in {Running, Pending, Compiling} ==>
                  st'.status == Paused && forall k :: 0 <= k < |st'.services| ==> !st'.services[k].raising)
            && (change == EnteredEditMode && st.status == Paused ==>
                  st'.status == Running && forall k :: 0 <= k < |st'.services| ==> st'.services[k].raising)
  {
    if change == ExitingEditMode && st.status in {Running, Pending, Compiling} {
      WithStatusEvents(st.(services := WithRaising(st.services, false)), Paused);
    } else if change == EnteredEditMode && st.status == Paused {
      WithStatusEvents(st.(services := WithRaising(st.services, true)), Running);
    }
  }

  /** A paused controller hears nothing: its watchers raise no events and updates do nothing. */
  lemma PausedIsQuiet(st: ControllerState, t: Tick, change: PlayModeChange)
    requires Inv(st) && st.config.Some? && st.config.value.isEnabled
    requires st.status in {Running, Pending, Compiling} && change == ExitingEditMode
    ensures var st' := PlayModeOf(st, change);
            && OnUpdateOf(st', t) == st'
            && forall i :: 0 <= i < |st'.services| ==> FileChangedOf(st', i, "") == st'
  {
    PlayModePausesAndResumes(st, change);
  }

  /** Every operation keeps the invariant. */
  lemma OperationsKeepInv(st: ControllerState, env: Env, config: Option<Config>, t: Tick, change: PlayModeChange)
    requires Inv(st)
    ensures Inv(InitializeOf(st, config, env))
    ensures Inv(ShutdownOf(st))
    ensures Inv(OnUpdateOf(st, t))
    ensures Inv(PlayModeOf(st, change))
  {
    if config.Some? {
      var st1 := st.(config := config, isInitialized := true);
      if config.value.isEnabled {
        if |st1.services| == 0 {
          StartServiceRunningIff(st1, env);
        }
      } else {
        WithStatusEvents(st1, Stopped);
      }
    } else {
      WithStatusEvents(st, Stopped);
    }
    StopServiceStops(st);
    WithStatusEvents(StopServiceOf(st).(config := None, isInitialized := false), Stopped);
    if st.config.Some? && st.config.value.isEnabled {
      PlayModePausesAndResumes(st, change);
    }
    OnUpdateKeepsInv(st, t);
  }

  lemma DrainKeepsInv(st: ControllerState, now: real, debounceMs: int)
    requires Inv(st) && |st.services| > 0
    ensures var st' := DrainChanges(st, now, debounceMs);
            Inv(st') && st'.services == st.services && st'.refreshes == st.refreshes
  {
    if st.changedFiles != [] {
      WithStatusEvents(st.(changedFiles := []), Pending);
    }
  }

  lemma EndDebounceKeepsInv(st: ControllerState, t: Tick)
    requires Inv(st)
    ensures Inv(EndDebounce(st, t))
  {
    if st.status == Pending && t.now >= st.debounceEndTime {
      WithStatusEvents(st.(debounceEndTime := 0.0), Running);
      var st1 := WithStatus(st.(debounceEndTime := 0.0), Running);
      WithStatusEvents(st1.(refreshes := st1.refreshes + 1), Compiling);
    }
  }

  lemma OnUpdateKeepsInv(st: ControllerState, t: Tick)
    requires Inv(st)
    ensures Inv(OnUpdateOf(st, t))
  {
    if UpdateGate(st) {
      if t.isCompiling {
        WithStatusEvents(st, Compiling);
      } else {
        WithStatusEvents(st, Running);
        var st1 := if st.status == Compiling then WithStatus(st, Running) else st;
        DrainKeepsInv(st1, t.now, st.config.value.debounceInterval);
        EndDebounceKeepsInv(DrainChanges(st1, t.now, st.config.value.debounceInterval), t);
      }
    }
  }

  /** AutoCompileController's static fields and methods. */
  class Controller {
    var status: Status
    var events: seq<Status>
    var config: Option<Config>
    var services: seq<MonitorService>
    var changedFiles: seq<string>
    var debounceEndTime: real
    var isInitialized: bool
    var refreshes: nat

    function State(): ControllerState
      reads this
    {
      ControllerState(status, events, config, services, changedFiles, debounceEndTime, isInitialized, refreshes)
    }

    constructor ()
      ensures State() == InitialState
    {
      status, events, config, services, changedFiles := Stopped, [], None, [], [];
      debounceEndTime, isInitialized, refreshes := 0.0, false, 0;
    }

    /** SetStatus. */
    method SetStatus(newStatus: Status)
      modifies this
      ensures State() == WithStatus(old(State()), newStatus)
    {
      if status == newStatus {
        return;
      }
      status := newStatus;
      events := events + [newStatus];
    }

    /** Initialize. */
    method Initialize(newConfig: Option<Config>, env: Env)
      modifies this
      ensures State() == InitializeOf(old(State()), newConfig, env)
    {
      if newConfig.None? {
        SetStatus(Stopped);
        return;
      }
      config := newConfig;
      isInitialized := true;
      if newConfig.value.isEnabled {
        StartService(env);
      } else {
        SetStatus(Stopped);
      }
    }

    /** Shutdown. */
    method Shutdown()
      modifies this
      ensures State() == ShutdownOf(old(State()))
    {
      StopService();
      config := None;
      isInitialized := false;
      SetStatus(Stopped);
    }

    /** StartService, with its loop over the watch paths. */
    method StartService(env: Env)
      modifies this
      ensures State() == StartServiceOf(old(State()), env)
    {
      if |services| > 0 {
        return;
      }
      if config.None? {
        return;
      }
      var ok, errorMessage := ValidateConfig(config, env);
      if !ok {
        SetStatus(Stopped);
        return;
      }
      var paths := config.value.watchPaths.value;
      var i := 0;
      while i < |paths|
        invariant 0 <= i <= |paths|
        invariant State() == old(State()).(services := StartedServices(paths[..i], env))
      {
        assert paths[..i + 1][..i] == paths[..i];
        var fullPath := GetFullPath(paths[i], env);
        if env.dirExists(fullPath) {
          services := services + [MonitorService(fullPath, true)];
        }
        i := i + 1;
      }
      assert paths[..|paths|] == paths;
      if |services| > 0 {
        SetStatus(Running);
      } else {
        SetStatus(Stopped);
      }
    }

    /** StopService: every watcher stopped and disposed. */
    method StopService()
      modifies this
      ensures State() == StopServiceOf(old(State()))
    {
      if |services| == 0 {
        return;
      }
      services := [];
      SetStatus(Stopped);
    }

    /** UpdateConfig, corrected to stop a compiling controller's watchers too (see UpdateConfigWith). */
    method UpdateConfig(newConfig: Option<Config>, env: Env)
      modifies this
      ensures State() == UpdateConfigOf(old(State()), newConfig, env)
    {
      if newConfig.None? {
        return;
      }
      var ok, errorMessage := ValidateConfig(newConfig, env);
      if !ok {
        return;
      }
      var wasRunning := status == Running || status == Pending || status == Compiling;
      if wasRunning {
        StopService();
      }
      config := newConfig;
      if newConfig.value.isEnabled {
        StartService(env);
      } else {
        SetStatus(Stopped);
      }
    }

    /** OnUpdate. */
    method OnUpdate(t: Tick)
      modifies this
      ensures State() == OnUpdateOf(old(State()), t)
    {
      if config.None? || !config.value.isEnabled || |services| == 0 || status == Paused {
        return;
      }
      if t.isCompiling {
        if status != Compiling {
          SetStatus(Compiling);
        }
        return;
      }
      if status == Compiling {
        SetStatus(Running);
      }
      DrainChangedFiles(t.now, config.value.debounceInterval);
      EndDebounceIfDue(t);
    }

    /** The drain of the changed-file queue in OnUpdate. */
    method DrainChangedFiles(now: real, debounceMs: int)
      modifies this
      ensures State() == DrainChanges(old(State()), now, debounceMs)
    {
      if changedFiles != [] {
        changedFiles := [];
        SetStatus(Pending);
        debounceEndTime := now + (debounceMs as real) / 1000.0;
      }
    }

    /** The end of the debounce in OnUpdate. */
    method EndDebounceIfDue(t: Tick)
      modifies this
      ensures State() == EndDebounce(old(State()), t)
    {
      if status == Pending && t.now >= debounceEndTime {
        debounceEndTime := 0.0;
        SetStatus(Running);
        if !t.isApplicationActive {
          refreshes := refreshes + 1;
          SetStatus(Compiling);
        }
      }
    }

    /** Start or Stop on every watcher. */
    method SetRaising(raising: bool)
      modifies this
      ensures State() == old(State()).(services := WithRaising(old(services), raising))
    {
      var ss := [];
      var i := 0;
      while i < |services|
        invariant 0 <= i <= |services|
        invariant ss == WithRaising(services[..i], raising)
        invariant State() == old(State())
      {
        WithRaisingStep(services, i, raising);
        ss := ss + [services[i].(raising := raising)];
        i := i + 1;
      }
      assert services[..|services|] == services;
      services := ss;
    }

    /** OnPlayModeStateChanged. */
    method OnPlayModeStateChanged(change: PlayModeChange)
      modifies this
      ensures State() == PlayModeOf(old(State()), change)
    {
      if config.None? || !config.value.isEnabled {
        return;
      }
      if change == ExitingEditMode {
        if status == Running || status == Pending || status == Compiling {
          SetRaising(false);
          SetStatus(Paused);
        }
      } else if change == EnteredEditMode {
        if status == Paused {
          SetRaising(true);
          SetStatus(Running);
        }
      }
    }

    /** FileMonitorService.OnFileChanged of one service. */
    method FileChanged(service: nat, path: string)
      requires service < |services|
      modifies this
      ensures State() == FileChangedOf(old(State()), service, path)
    {
      if services[service].raising {
        changedFiles := changedFiles + [path];
      }
    }
  }
}
