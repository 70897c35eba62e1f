/**
 The pipeline lifecycle of `AgentRuntime`, one command at a time: start, stop, serve,
 deploy commit, update and uninstall (src/link/app/runtime.py:203-305, 471-586, 812-823,
 887-927, 955-1040).

 Each operation is a function on `World` with the outcome of the foreign effects (does the
 old thread stop, do the components build, does the new thread start, does the file go) as a
 parameter.
 */
module Lifecycle {
  import opened Common
  import opened SavedState
  import opened ModelFiles

  /** One tracked pipeline: a serial number, the config it was built from, and whether its thread was started. */
  datatype Instance = Instance(serial: nat, built: PipelineConfig, started: bool)

  datatype World = World(
    agent: AgentConfig,                    // agent_config
    configs: map<string, PipelineConfig>,  // pipeline_configs
    shared: set<string>,                   // ids whose stored config is the object inside agent_config
    running: map<string, Instance>,        // pipelines
    next: nat,                             // serial of the next instance
    saved: AgentConfig,                    // what the state manager holds, in memory and on disk
    files: set<Location>,                  // model files on disk
    up: bool,                              // the process is there to handle commands
    restart: bool)                         // config_restart_requested

  datatype Outcome = Outcome(w: World, ok: bool)

  /** What the outside world answers: the old thread stops in time, the components build, the new
      thread can be started, the file can be deleted; and the working directory. */
  datatype Env = Env(stops: bool, builds: bool, starts: bool, removes: bool, cwd: Location)

  datatype Command =
    | StartModel(id: string, config: PipelineConfig)
    | StartInference(id: string)
    | StopModel(id: string)
    | StartServing(id: string, port: string, host: string, alias: string)
    | DeployCommit(id: string, config: PipelineConfig)
    | UpdatePipeline(id: string, config: PipelineConfig)
    | UninstallModel(id: string, force: bool, filename: string, extension: string)

  // ----------------------------------------------------------- the operations

  function SetSaved(w: World, list: seq<PipelineConfig>): (r: World) { w.(saved := w.saved.(pipelines := list)) }

  /** A thread that was never started is not alive, whatever joining it raises. */
  predicate CanStop(w: World, id: string, stops: bool) { id in w.running ==> stops || !w.running[id].started }

  /** `_stop_pipeline`: a thread that does not stop in time stays tracked. */
  function Stop(w: World, id: string, stops: bool): (r: Outcome) {
    if id !in w.running then Outcome(w, true)
    else if !CanStop(w, id, stops) then Outcome(w, false)
    else Outcome(SetSaved(w.(running := w.running - {id}), SetActive(w.saved.pipelines, id, false)), true)
  }

  /** The config a start will use: the one given, else the stored one. */
  function Chosen(w: World, id: string, given: Option<PipelineConfig>): (r: Option<PipelineConfig>) {
    if given.Some? then given else if id in w.configs then Some(w.configs[id]) else None
  }

  /** Already running with exactly this config. */
  predicate Identical(w: World, id: string, given: Option<PipelineConfig>) {
    given.Some? && id in w.running && id in w.configs && w.configs[id] == given.value
  }

  /** The start gets as far as a built pipeline. */
  predicate Launches(w: World, id: string, given: Option<PipelineConfig>, env: Env) {
    !Identical(w, id, given) && Chosen(w, id, given).Some? && CanStop(w, id, env.stops) && env.builds
  }

  /** Thread creation raises: nothing catches it before the command handler, or the main program at recovery. */
  predicate StartRaises(w: World, id: string, given: Option<PipelineConfig>, env: Env) {
    Launches(w, id, given, env) && !env.starts
  }

  /** Store the config that was given and track the pipeline: what happens before its thread is started. */
  function Register(w: World, id: string, given: Option<PipelineConfig>, conf: PipelineConfig, started: bool): (r: World) {
    var stored := if given.Some? then w.(configs := w.configs[id := conf], shared := w.shared - {id}) else w;
    stored.(running := w.running[id := Instance(w.next, conf, started)], next := w.next + 1)
  }

  /** Register, start, and persist. */
  function Launch(w: World, id: string, given: Option<PipelineConfig>, conf: PipelineConfig): (r: World) {
    SetSaved(Register(w, id, given, conf, true), SetActive(Upsert(w.saved.pipelines, conf), id, true))
  }

  /** `_start_pipeline`. */
  function Start(w: World, id: string, given: Option<PipelineConfig>, env: Env): (r: Outcome) {
    if Identical(w, id, given) then Outcome(w, true)
    else if Chosen(w, id, given).None? then Outcome(w, false)
    else
      var conf := Chosen(w, id, given).value;
      var stopped := Stop(w, id, env.stops);
      if !stopped.ok then stopped
      else if !env.builds then Outcome(stopped.w, false)
      else if !env.starts then Outcome(Register(stopped.w, id, given, conf, false), false)
      else Outcome(Launch(stopped.w, id, given, conf), true)
  }

  function Serving(c: PipelineConfig, port: string, host: string, alias: string): (r: PipelineConfig) {
    c.(source := c.source.(args := c.source.args["mode" := "serve"]["port" := port]["host" := host]["alias" := alias]))
  }

  /** Rewrite a stored config in place: the agent config sees it too when it owns that object. */
  function Rewrite(w: World, id: string, c: PipelineConfig): (r: World) {
    var agent := if id in w.shared then w.agent.(pipelines := Upsert(w.agent.pipelines, c)) else w.agent;
    SetSaved(w.(configs := w.configs[id := c], agent := agent), Upsert(w.saved.pipelines, c))
  }

  /** START_SERVING. */
  function Serve(w: World, id: string, port: string, host: string, alias: string, env: Env): (r: Outcome) {
    if id !in w.configs then Outcome(w, false)
    else Start(Rewrite(w, id, Serving(w.configs[id], port, host, alias)), id, None, env)
  }

  /** Store a new definition without touching what runs (`_commit_deploy`, and an update of a stopped pipeline). */
  function Store(w: World, id: string, c: PipelineConfig): (r: World) {
    SetSaved(w.(configs := w.configs[id := c], shared := w.shared - {id}), Upsert(w.saved.pipelines, c))
  }

  function Deploy(w: World, id: string, c: PipelineConfig): (r: Outcome) {
    if c.id != id then Outcome(w, false) else Outcome(Store(w, id, c), true)
  }

  /** `_update_pipeline`. */
  function Update(w: World, id: string, c: PipelineConfig, env: Env): (r: Outcome) {
    if c.id != id then Outcome(w, false)
    else if id in w.running then Start(w, id, Some(c), env)
    else Outcome(Store(w, id, c), true)
  }

  function ModelPath(c: PipelineConfig): (r: Option<Path>) {
    if "model_path" in c.source.args && c.source.args["model_path"] != "" then Some(ParsePath(c.source.args["model_path"]))
    else None
  }

  /** The file to delete: the one the stored config names, else the one the command names. */
  function Artifact(w: World, id: string, fallback: Option<Path>): (r: Option<Path>) {
    if id in w.configs && ModelPath(w.configs[id]).Some? then ModelPath(w.configs[id]) else fallback
  }

  /** Another stored config spells the same path. */
  predicate UsedByOther(w: World, id: string, path: Path) {
    exists other :: other in w.configs && other != id && ModelPath(w.configs[other]) == Some(path)
  }

  function Forget(w: World, id: string): (r: World) {
    SetSaved(w.(configs := w.configs - {id}, shared := w.shared - {id}), Without(w.saved.pipelines, id))
  }

  function Delete(w: World, path: Option<Path>, env: Env): (r: World) {
    if path.Some? && env.removes then w.(files := w.files - {Locate(env.cwd, path.value)}) else w
  }

  /** `_uninstall_model`. A refusal because the file is shared comes after a forced stop. */
  function Uninstall(w: World, id: string, force: bool, fallback: Option<Path>, env: Env): (r: Outcome) {
    if id in w.running && !force then Outcome(w, false)
    else
      var stopped := Stop(w, id, env.stops);
      var path := Artifact(w, id, fallback);
      if !stopped.ok then stopped
      else if path.Some? && UsedByOther(w, id, path.value) then Outcome(stopped.w, false)
      else Outcome(Delete(Forget(stopped.w, id), path, env), true)
  }

  /** The names an UNINSTALL_MODEL carries must be plain. */
  predicate PlainNames(filename: string, extension: string) {
    (filename != "" ==> IsSafeBasename(filename)) && (extension != "" ==> IsSafeExtension(extension))
  }

  /** UNINSTALL_MODEL */
  function UninstallCommand(w: World, id: string, force: bool, filename: string, extension: string, env: Env): (r: Outcome) {
    if !PlainNames(filename, extension) then Outcome(w, false)
    else Uninstall(w, id, force, Fallback(env.cwd, filename, extension), env)
  }

  /** What an UNINSTALL_MODEL must meet: plain names, a pipeline that is not running or is forced to
      stop and does, and a file whose path no other stored config spells. */
  predicate UninstallAllowed(w: World, id: string, force: bool, filename: string, extension: string, env: Env) {
    var path := Artifact(w, id, Fallback(env.cwd, filename, extension));
    && PlainNames(filename, extension)
    && (id in w.running ==> force && CanStop(w, id, env.stops))
    && (path.Some? ==> !UsedByOther(w, id, path.value))
  }

  function Handle(w: World, cmd: Command, env: Env): (r: Outcome) {
    match cmd
    case StartModel(id, config) => Start(w, id, Some(config), env)
    case StartInference(id) => Start(w, id, None, env)
    case StopModel(id) => Stop(w, id, env.stops)
    case StartServing(id, port, host, alias) => Serve(w, id, port, host, alias, env)
    case DeployCommit(id, config) => Deploy(w, id, config)
    case UpdatePipeline(id, config) => Update(w, id, config, env)
    case UninstallModel(id, force, filename, extension) => UninstallCommand(w, id, force, filename, extension, env)
  }

  // ------------------------------------------------------------ the invariant

  /** The same definitions in memory and on disk. */
  ghost predicate Agrees(configs: map<string, PipelineConfig>, list: seq<PipelineConfig>) {
    forall id :: (id in configs <==> Lookup(list, id).Some?)
      && (id in configs ==> Definition(configs[id]) == Definition(Lookup(list, id).value))
  }

  /** Whatever runs is marked active on disk. */
  ghost predicate Marked(running: map<string, Instance>, list: seq<PipelineConfig>) {
    forall id :: id in running ==> IsActive(list, id)
  }

  ghost predicate Keyed(configs: map<string, PipelineConfig>) {
    forall id :: id in configs ==> configs[id].id == id
  }

  /** A config object that is shared with the agent config has one value. */
  ghost predicate SharesAgree(w: World) {
    forall id :: id in w.shared ==> id in w.configs && Lookup(w.agent.pipelines, id) == Some(w.configs[id])
  }

  ghost predicate Mirror(w: World) {
    UniqueIds(w.saved.pipelines) && Agrees(w.configs, w.saved.pipelines) && Marked(w.running, w.saved.pipelines)
    && Keyed(w.configs) && SharesAgree(w)
  }

  /** Everything tracked has a stored config: disk says active, so the id is on disk, so it is in memory. */
  lemma {:induction false} TrackedIsStored(w: World, id: string)
    requires Mirror(w) && id in w.running
    ensures id in w.configs && w.configs[id].id == id && IsActive(w.saved.pipelines, id)
    ensures Definition(w.configs[id]) == Definition(Lookup(w.saved.pipelines, id).value)
  {
    assert IsActive(w.saved.pipelines, id);
  }

  // --------------------------------------------------- edits keep the invariant

  lemma {:induction false} AgreesAfterUpsert(configs: map<string, PipelineConfig>, list: seq<PipelineConfig>, c: PipelineConfig)
    requires Agrees(configs, list)
    ensures Agrees(configs[c.id := c], Upsert(list, c))
  {
    forall id ensures Lookup(Upsert(list, c), id) ==
                      if id == c.id then Some(c.(active := IsActive(list, c.id))) else Lookup(list, id) {
      LookupUpsert(list, c, id);
    }
  }

  lemma {:induction false} AgreesAfterSetActive(configs: map<string, PipelineConfig>, list: seq<PipelineConfig>, key: string, active: bool)
    requires Agrees(configs, list)
    ensures Agrees(configs, SetActive(list, key, active))
  {
    forall id ensures Lookup(SetActive(list, key, active), id) ==
                      if id == key && Lookup(list, id).Some? then Some(Lookup(list, id).value.(active := active)) else Lookup(list, id) {
      LookupSetActive(list, key, active, id);
    }
  }

  lemma {:induction false} AgreesAfterWithout(configs: map<string, PipelineConfig>, list: seq<PipelineConfig>, key: string)
    requires Agrees(configs, list)
    ensures Agrees(configs - {key}, Without(list, key))
  {
    forall id ensures Lookup(Without(list, key), id) == if id == key then None else Lookup(list, id) {
      LookupWithout(list, key, id);
    }
  }

  lemma {:induction false} ActiveAfterEdits(list: seq<PipelineConfig>, c: PipelineConfig, key: string, active: bool, id: string)
    ensures IsActive(Upsert(list, c), id) == IsActive(list, id)
    ensures IsActive(SetActive(list, key, active), id) ==
            if id == key then Lookup(list, id).Some? && active else IsActive(list, id)
    ensures IsActive(Without(list, key), id) == (id != key && IsActive(list, id))
  {
    LookupUpsert(list, c, id);
    LookupSetActive(list, key, active, id);
    LookupWithout(list, key, id);
  }

  /** What a swap of pipelines relies on, whatever happens to the stored configs. */
  ghost predicate Tracked(w: World) {
    UniqueIds(w.saved.pipelines) && Marked(w.running, w.saved.pipelines)
  }

  lemma StopKeepsTracked(w: World, id: string, stops: bool)
    requires Tracked(w)
    ensures Tracked(Stop(w, id, stops).w)
  {
    var c := PipelineConfig(id, false, Component("", map[]), None);
    EditsKeepUnique(w.saved.pipelines, c, id, false);
    forall x ensures IsActive(SetActive(w.saved.pipelines, id, false), x) == (x != id && IsActive(w.saved.pipelines, x)) {
      ActiveAfterEdits(w.saved.pipelines, c, id, false, x);
    }
  }

  lemma LaunchKeepsTracked(w: World, id: string, given: Option<PipelineConfig>, conf: PipelineConfig)
    requires Tracked(w) && conf.id == id
    ensures Tracked(Launch(w, id, given, conf))
  {
    var list := w.saved.pipelines;
    var put := Upsert(list, conf);
    EditsKeepUnique(list, conf, id, true);
    EditsKeepUnique(put, conf, id, true);
    LookupUpsert(list, conf, id);
    forall x ensures IsActive(SetActive(put, id, true), x) == (x == id || IsActive(list, x)) {
      ActiveAfterEdits(list, conf, id, true, x);
      ActiveAfterEdits(put, conf, id, true, x);
    }
  }

  lemma StartKeepsTracked(w: World, id: string, given: Option<PipelineConfig>, env: Env)
    requires Tracked(w) && !StartRaises(w, id, given, env)
    requires Chosen(w, id, given).Some? ==> Chosen(w, id, given).value.id == id
    ensures Tracked(Start(w, id, given, env).w)
  {
    StopKeepsTracked(w, id, env.stops);
    if Chosen(w, id, given).Some? {
      LaunchKeepsTracked(Stop(w, id, env.stops).w, id, given, Chosen(w, id, given).value);
    }
  }

  lemma StopKeepsMirror(w: World, id: string, stops: bool)
    requires Mirror(w)
    ensures Mirror(Stop(w, id, stops).w)
  {
    StopKeepsTracked(w, id, stops);
    AgreesAfterSetActive(w.configs, w.saved.pipelines, id, false);
  }

  lemma LaunchKeepsMirror(w: World, id: string, given: Option<PipelineConfig>, conf: PipelineConfig)
    requires Mirror(w) && Chosen(w, id, given) == Some(conf) && conf.id == id
    ensures Mirror(Launch(w, id, given, conf))
  {
    LaunchKeepsTracked(w, id, given, conf);
    AgreesAfterUpsert(w.configs, w.saved.pipelines, conf);
    AgreesAfterSetActive(w.configs[id := conf], Upsert(w.saved.pipelines, conf), id, true);
    assert given.None? ==> w.configs[id := conf] == w.configs;
  }

  lemma StartKeepsMirror(w: World, id: string, given: Option<PipelineConfig>, env: Env)
    requires Mirror(w) && !StartRaises(w, id, given, env)
    requires given.Some? ==> given.value.id == id
    ensures Mirror(Start(w, id, given, env).w)
  {
    var stopped := Stop(w, id, env.stops).w;
    StopKeepsMirror(w, id, env.stops);
    StartSteps(w, id, given, env);
    if Launches(w, id, given, env) {
      LaunchKeepsMirror(stopped, id, given, Chosen(w, id, given).value);
    }
  }

  // A start leaves things alone, stops the old thread, or launches after that.
  lemma StartSteps(w: World, id: string, given: Option<PipelineConfig>, env: Env)
    ensures var r, stopped := Start(w, id, given, env).w, Stop(w, id, env.stops).w;
            Chosen(stopped, id, given) == Chosen(w, id, given)
            && (StartRaises(w, id, given, env) || r == w || r == stopped
                || (Launches(w, id, given, env) && r == Launch(stopped, id, given, Chosen(w, id, given).value)))
  {
  }

  lemma StoreKeepsMirror(w: World, id: string, c: PipelineConfig)
    requires Mirror(w) && c.id == id
    ensures Mirror(Store(w, id, c))
  {
    EditsKeepUnique(w.saved.pipelines, c, id, false);
    AgreesAfterUpsert(w.configs, w.saved.pipelines, c);
    forall x ensures IsActive(Upsert(w.saved.pipelines, c), x) == IsActive(w.saved.pipelines, x) {
      ActiveAfterEdits(w.saved.pipelines, c, id, false, x);
    }
  }

  lemma RewriteKeepsMirror(w: World, id: string, c: PipelineConfig)
    requires Mirror(w) && id in w.configs && c.id == id && c.active == w.configs[id].active
    ensures Mirror(Rewrite(w, id, c))
  {
    StoreKeepsMirror(w, id, c);
    var after := Rewrite(w, id, c);
    forall x | x in w.shared ensures Lookup(after.agent.pipelines, x) == Some(after.configs[x]) {
      LookupUpsert(w.agent.pipelines, c, x);
    }
  }

  lemma ForgetKeepsMirror(w: World, id: string)
    requires Mirror(w) && id !in w.running
    ensures Mirror(Forget(w, id))
  {
    var c := PipelineConfig(id, false, Component("", map[]), None);
    EditsKeepUnique(w.saved.pipelines, c, id, false);
    AgreesAfterWithout(w.configs, w.saved.pipelines, id);
    forall x ensures IsActive(Without(w.saved.pipelines, id), x) == (x != id && IsActive(w.saved.pipelines, x)) {
      ActiveAfterEdits(w.saved.pipelines, c, id, false, x);
    }
  }

  lemma MirrorIgnoresFiles(w: World, files: set<Location>)
    requires Mirror(w)
    ensures Mirror(w.(files := files))
  {
  }

  lemma UninstallKeepsMirror(w: World, id: string, force: bool, fallback: Option<Path>, env: Env)
    requires Mirror(w)
    ensures Mirror(Uninstall(w, id, force, fallback, env).w)
  {
    var stopped := Stop(w, id, env.stops);
    StopKeepsMirror(w, id, env.stops);
    UninstallSteps(w, id, force, fallback, env);
    if stopped.ok {
      ForgottenKeepsMirror(stopped.w, id, Artifact(w, id, fallback), env);
    }
  }

  // An uninstall is the stop of the pipeline, and then the removal of its file and its definitions.
  lemma UninstallHalves(w: World, id: string, force: bool, fallback: Option<Path>, env: Env)
    ensures var stopped := Stop(w, id, env.stops);
            var path := Artifact(stopped.w, id, fallback);
            Uninstall(w, id, force, fallback, env) ==
            if id in w.running && !force then Outcome(w, false)
            else if !stopped.ok || (path.Some? && UsedByOther(stopped.w, id, path.value)) then Outcome(stopped.w, false)
            else Outcome(Delete(Forget(stopped.w, id), path, env), true)
  {
    assert Stop(w, id, env.stops).w.configs == w.configs;
  }

  lemma UninstallSteps(w: World, id: string, force: bool, fallback: Option<Path>, env: Env)
    ensures var r := Uninstall(w, id, force, fallback, env).w;
            var stopped := Stop(w, id, env.stops);
            r == w || r == stopped.w || (stopped.ok && r == Delete(Forget(stopped.w, id), Artifact(w, id, fallback), env))
    ensures Stop(w, id, env.stops).ok ==> id !in Stop(w, id, env.stops).w.running
  {
  }

  lemma ForgottenKeepsMirror(w: World, id: string, path: Option<Path>, env: Env)
    requires Mirror(w) && id !in w.running
    ensures Mirror(Delete(Forget(w, id), path, env))
  {
    var gone := Forget(w, id);
    ForgetKeepsMirror(w, id);
    MirrorIgnoresFiles(gone, Delete(gone, path, env).files);
  }

  // ------------------------------------------------------- when a start is safe

  /**
   What a start must meet to leave memory and disk mirrored. If it gets as far as a pipeline
   whose thread starts, the config must carry the id it is stored under. If the thread does not
   start, nothing is persisted any more: the pipeline must not have been running (it was then
   marked inactive), must be marked active already, and must be defined on disk as it is now.
   */
  predicate StartSafe(w: World, id: string, given: Option<PipelineConfig>, env: Env) {
    Launches(w, id, given, env) ==>
      var conf := Chosen(w, id, given).value;
      if env.starts then conf.id == id
      else id !in w.running && IsActive(w.saved.pipelines, id)
           && Definition(conf) == Definition(Lookup(w.saved.pipelines, id).value)
  }

  lemma RaisedStartMirrorIff(w: World, id: string, given: Option<PipelineConfig>, env: Env)
    requires Mirror(w) && StartRaises(w, id, given, env)
    ensures Mirror(Start(w, id, given, env).w) <==> StartSafe(w, id, given, env)
  {
    var c := Chosen(w, id, given).value;
    var after := Start(w, id, given, env).w;
    if id in w.running {
      ActiveAfterEdits(w.saved.pipelines, c, id, false, id);
      assert id in after.running && !IsActive(after.saved.pipelines, id);
    } else {
      assert after == Register(w, id, given, c, false);
      RegisterMirrorIff(w, id, given, c);
    }
  }

  lemma {:induction false} RegisterMirrorIff(w: World, id: string, given: Option<PipelineConfig>, c: PipelineConfig)
    requires Mirror(w) && id !in w.running && Chosen(w, id, given) == Some(c)
    ensures Mirror(Register(w, id, given, c, false)) <==>
            IsActive(w.saved.pipelines, id) && Definition(c) == Definition(Lookup(w.saved.pipelines, id).value)
  {
    if Mirror(Register(w, id, given, c, false)) {
      TrackedIsStored(Register(w, id, given, c, false), id);
    }
    if IsActive(w.saved.pipelines, id) && Definition(c) == Definition(Lookup(w.saved.pipelines, id).value) {
      RegisterKeepsMirror(w, id, given, c);
    }
  }

  lemma {:induction false} RegisterKeepsMirror(w: World, id: string, given: Option<PipelineConfig>, c: PipelineConfig)
    requires Mirror(w) && Chosen(w, id, given) == Some(c) && IsActive(w.saved.pipelines, id)
    requires Definition(c) == Definition(Lookup(w.saved.pipelines, id).value)
    ensures Mirror(Register(w, id, given, c, false))
  {
    AgreesAfterStoring(w.configs, w.saved.pipelines, id, c);
    assert given.None? ==> w.configs[id := c] == w.configs;
  }

  // Storing what is on disk already.
  lemma {:induction false} AgreesAfterStoring(configs: map<string, PipelineConfig>, list: seq<PipelineConfig>, id: string, c: PipelineConfig)
    requires Agrees(configs, list) && Keyed(configs) && Lookup(list, id).Some? && Definition(c) == Definition(Lookup(list, id).value)
    ensures Agrees(configs[id := c], list) && Keyed(configs[id := c])
  {
    assert Definition(c).id == c.id;
  }

  /** A start keeps the mirror if and only if it is safe. */
  lemma StartMirrorIff(w: World, id: string, given: Option<PipelineConfig>, env: Env)
    requires Mirror(w)
    ensures Mirror(Start(w, id, given, env).w) <==> StartSafe(w, id, given, env)
  {
    if StartRaises(w, id, given, env) {
      RaisedStartMirrorIff(w, id, given, env);
    } else if given.Some? && given.value.id != id && Launches(w, id, given, env) {
      var after := Start(w, id, given, env).w;
      assert id in after.configs && after.configs[id] == given.value;
    } else {
      UnlaunchedKeepsMirror(w, id, given, env);
      if given.Some? ==> given.value.id == id {
        StartKeepsMirror(w, id, given, env);
      }
    }
  }

  lemma UnlaunchedKeepsMirror(w: World, id: string, given: Option<PipelineConfig>, env: Env)
    requires Mirror(w)
    ensures !Launches(w, id, given, env) ==> Mirror(Start(w, id, given, env).w)
  {
    StopKeepsMirror(w, id, env.stops);
  }

  /** What a command must meet: only the ones that start something can fail it. */
  predicate CommandSafe(w: World, cmd: Command, env: Env) {
    match cmd
    case StartModel(id, config) => StartSafe(w, id, Some(config), env)
    case StartInference(id) => StartSafe(w, id, None, env)
    case StartServing(id, port, host, alias) =>
      id in w.configs ==> StartSafe(Rewrite(w, id, Serving(w.configs[id], port, host, alias)), id, None, env)
    case UpdatePipeline(id, config) => config.id == id && id in w.running ==> StartSafe(w, id, Some(config), env)
    case _ => true
  }

  lemma ServeMirrorIff(w: World, id: string, port: string, host: string, alias: string, env: Env)
    requires Mirror(w)
    ensures Mirror(Serve(w, id, port, host, alias, env).w) <==> CommandSafe(w, StartServing(id, port, host, alias), env)
  {
    if id in w.configs {
      var c := Serving(w.configs[id], port, host, alias);
      RewriteKeepsMirror(w, id, c);
      StartMirrorIff(Rewrite(w, id, c), id, None, env);
    }
  }

  lemma UpdateMirrorIff(w: World, id: string, c: PipelineConfig, env: Env)
    requires Mirror(w)
    ensures Mirror(Update(w, id, c, env).w) <==> CommandSafe(w, UpdatePipeline(id, c), env)
  {
    if c.id == id {
      StartMirrorIff(w, id, Some(c), env);
      StoreKeepsMirror(w, id, c);
    }
  }

  /** Every command leaves memory and disk mirrored if and only if it is safe. */
  lemma HandleMirrorIff(w: World, cmd: Command, env: Env)
    requires Mirror(w)
    ensures Mirror(Handle(w, cmd, env).w) <==> CommandSafe(w, cmd, env)
  {
    match cmd
    case StartModel(id, config) => StartMirrorIff(w, id, Some(config), env);
    case StartInference(id) => StartMirrorIff(w, id, None, env);
    case StopModel(id) => StopKeepsMirror(w, id, env.stops);
    case StartServing(id, port, host, alias) => ServeMirrorIff(w, id, port, host, alias, env);
    case DeployCommit(id, config) => if config.id == id { StoreKeepsMirror(w, id, config); }
    case UpdatePipeline(id, config) => UpdateMirrorIff(w, id, config, env);
    case UninstallModel(id, force, filename, extension) =>
      UninstallKeepsMirror(w, id, force, Fallback(env.cwd, filename, extension), env);
  }

  /** While threads can be created, the one unsafe command is a START_MODEL whose config carries another id. */
  lemma OnlyMisaddressedStartsAreUnsafe(w: World, cmd: Command, env: Env)
    requires Mirror(w) && env.starts
    ensures CommandSafe(w, cmd, env) <==>
            !(cmd.StartModel? && cmd.config.id != cmd.id && Launches(w, cmd.id, Some(cmd.config), env))
  {
    if cmd.StartServing? && cmd.id in w.configs {
      var c := Serving(w.configs[cmd.id], cmd.port, cmd.host, cmd.alias);
      assert Rewrite(w, cmd.id, c).configs[cmd.id].id == cmd.id;
    }
  }

  /** Whatever the environment answers while threads can be created, exactly the well-addressed starts are safe. */
  lemma StartMirrorAlwaysIff(w: World, id: string, c: PipelineConfig)
    requires Mirror(w)
    ensures (forall env: Env :: env.starts ==> Mirror(Start(w, id, Some(c), env).w)) <==> c.id == id
  {
    forall env: Env ensures Mirror(Start(w, id, Some(c), env).w) <==> StartSafe(w, id, Some(c), env) {
      StartMirrorIff(w, id, Some(c), env);
    }
    if c.id != id {
      var kind := Env(true, true, true, true, []);
      assert kind.starts && !StartSafe(w, id, Some(c), kind);
      assert !Mirror(Start(w, id, Some(c), kind).w);
    }
  }

  /** One such command: the pipeline runs under its id, and a crash never restarts it. */
  lemma MisaddressedStartIsForgotten(meta: Meta, source: Component)
    ensures var w := World(AgentConfig(meta, []), map[], {}, map[], 0, AgentConfig(meta, []), {}, true, false);
            var r := Start(w, "a", Some(PipelineConfig("b", false, source, None)), Env(true, true, true, true, []));
            Mirror(w) && r.ok && "a" in r.w.running && !Mirror(r.w)
            && !IsActive(r.w.saved.pipelines, "a") && !IsActive(r.w.saved.pipelines, "b")
  {
    var w := World(AgentConfig(meta, []), map[], {}, map[], 0, AgentConfig(meta, []), {}, true, false);
    var c := PipelineConfig("b", false, source, None);
    var kind := Env(true, true, true, true, []);
    assert Upsert([], c) == [c];
    assert SetActive([c], "a", true) == [c] + SetActive([], "a", true);
    var list := Start(w, "a", Some(c), kind).w.saved.pipelines;
    assert list == [c];
    assert Lookup([c], "a") == Lookup([], "a");
    assert !IsActive(list, "a");
  }

  // ------------------------------------------------------------- failed starts

  /** A failed start leaves every other pipeline and every persisted definition as they were. It
      leaves the stored configs as they were if and only if it did not store a new one before
      thread creation raised. */
  lemma FailedStartKeepsConfigsIff(w: World, id: string, given: Option<PipelineConfig>, env: Env)
    requires !Start(w, id, given, env).ok
    ensures var after := Start(w, id, given, env).w;
            && (after.configs == w.configs <==>
                  !(StartRaises(w, id, given, env) && given.Some? && !(id in w.configs && w.configs[id] == given.value)))
            && after.agent == w.agent && after.files == w.files
            && (forall x :: x != id ==> (x in after.running <==> x in w.running)
                                        && (x in w.running ==> after.running[x] == w.running[x]))
    ensures forall x :: Lookup(Start(w, id, given, env).w.saved.pipelines, x).Some? <==> Lookup(w.saved.pipelines, x).Some?
    ensures forall x :: Lookup(w.saved.pipelines, x).Some? ==>
                          Definition(Lookup(Start(w, id, given, env).w.saved.pipelines, x).value)
                          == Definition(Lookup(w.saved.pipelines, x).value)
  {
    FailedStartStores(w, id, given, env);
    FailedStartSaves(w, id, given, env);
    forall x ensures Lookup(SetActive(w.saved.pipelines, id, false), x) ==
                     if x == id && Lookup(w.saved.pipelines, x).Some? then Some(Lookup(w.saved.pipelines, x).value.(active := false))
                     else Lookup(w.saved.pipelines, x) {
      LookupSetActive(w.saved.pipelines, id, false, x);
    }
  }

  lemma FailedStartStores(w: World, id: string, given: Option<PipelineConfig>, env: Env)
    requires !Start(w, id, given, env).ok
    ensures var after := Start(w, id, given, env).w;
            after.configs == w.configs <==>
            !(StartRaises(w, id, given, env) && given.Some? && !(id in w.configs && w.configs[id] == given.value))
  {
    if StartRaises(w, id, given, env) && given.Some? {
      assert Start(w, id, given, env).w.configs == w.configs[id := given.value];
      assert id in w.configs && w.configs[id] == given.value ==> w.configs[id := given.value] == w.configs;
    }
  }

  // A failed start persists nothing, except that it has stopped what was running.
  lemma {:induction false} FailedStartSaves(w: World, id: string, given: Option<PipelineConfig>, env: Env)
    requires !Start(w, id, given, env).ok
    ensures var list := Start(w, id, given, env).w.saved.pipelines;
            list == w.saved.pipelines || (id in w.running && list == SetActive(w.saved.pipelines, id, false))
  {
  }

  /** Short of a thread that cannot be created, a failed start leaves its pipeline as it was, or stopped. */
  lemma FailedStartStopsAtMost(w: World, id: string, given: Option<PipelineConfig>, env: Env)
    requires !Start(w, id, given, env).ok && !StartRaises(w, id, given, env)
    ensures Start(w, id, given, env).w == w || (id in w.running && Start(w, id, given, env).w == Stop(w, id, env.stops).w)
  {
  }

  /** After one, the same START_MODEL again reports success, and still nothing runs. */
  lemma RetryAfterRaiseIsNoOp(w: World, id: string, c: PipelineConfig, env: Env, again: Env)
    requires StartRaises(w, id, Some(c), env)
    ensures var after := Start(w, id, Some(c), env).w;
            id in after.running && !after.running[id].started && Start(after, id, Some(c), again) == Outcome(after, true)
  {
  }

  lemma StartTracks(w: World, id: string, given: Option<PipelineConfig>, env: Env)
    requires Start(w, id, given, env).ok
    ensures var after := Start(w, id, given, env).w;
            id in after.running && id in after.configs && Some(after.configs[id]) == Chosen(w, id, given)
            && if Identical(w, id, given) then after == w
               else after.running[id] == Instance(w.next, after.configs[id], true) && after.next == w.next + 1
  {
    var stopped := Stop(w, id, env.stops).w;
    assert stopped.configs == w.configs && stopped.next == w.next;
  }

  // What a start saves: the definition under the id it carries, and the mark of the id it starts.
  lemma {:induction false} StartSaves(w: World, id: string, given: Option<PipelineConfig>, env: Env)
    requires Launches(w, id, given, env) && env.starts
    ensures var list, conf := Start(w, id, given, env).w.saved.pipelines, Chosen(w, id, given).value;
            && Lookup(list, conf.id).Some? && Definition(Lookup(list, conf.id).value) == Definition(conf)
            && (IsActive(list, id) <==> conf.id == id || Lookup(w.saved.pipelines, id).Some?)
  {
    var conf, list := Chosen(w, id, given).value, Stop(w, id, env.stops).w.saved.pipelines;
    LookupSetActive(w.saved.pipelines, id, false, id);
    LookupUpsert(list, conf, conf.id);
    LookupUpsert(list, conf, id);
    LookupSetActive(Upsert(list, conf), id, true, conf.id);
    LookupSetActive(Upsert(list, conf), id, true, id);
  }

  /** A start that succeeds ends with the pipeline tracked on its chosen config, which is stored, and
      persisted under the id it carries; unless it was tracked on that config before, its thread is
      new. It is marked active unless it carries another id and nothing is saved under its own. */
  lemma {:induction false} StartedMeans(w: World, id: string, given: Option<PipelineConfig>, env: Env)
    requires Mirror(w) && Start(w, id, given, env).ok
    ensures var after, list := Start(w, id, given, env).w, Start(w, id, given, env).w.saved.pipelines;
            id in after.running && id in after.configs && Some(after.configs[id]) == Chosen(w, id, given)
            && Lookup(list, after.configs[id].id).Some?
            && Definition(Lookup(list, after.configs[id].id).value) == Definition(after.configs[id])
            && (IsActive(list, id) <==> after.configs[id].id == id || Lookup(w.saved.pipelines, id).Some?)
            && if Identical(w, id, given) then after == w
               else after.running[id] == Instance(w.next, after.configs[id], true)
  {
    StartTracks(w, id, given, env);
    if Identical(w, id, given) {
      TrackedIsStored(w, id);
    } else {
      StartSaves(w, id, given, env);
    }
  }

  // ----------------------------------------------------------------- uninstall

  /** A successful uninstall leaves no trace of the pipeline. */
  lemma {:induction false} UninstalledIsGone(w: World, id: string, force: bool, fallback: Option<Path>, env: Env)
    requires Uninstall(w, id, force, fallback, env).ok
    ensures var after := Uninstall(w, id, force, fallback, env).w;
            id !in after.running && id !in after.configs && Lookup(after.saved.pipelines, id) == None
            && (env.removes && Artifact(w, id, fallback).Some? ==>
                  Locate(env.cwd, Artifact(w, id, fallback).value) !in after.files)
  {
    var stopped := Stop(w, id, env.stops).w;
    LookupWithout(stopped.saved.pipelines, id, id);
  }

  /** The stored path of a pipeline leads to this place. */
  predicate PointsAt(w: World, cwd: Location, other: string, place: Location) {
    other in w.configs && ModelPath(w.configs[other]).Some? && Locate(cwd, ModelPath(w.configs[other]).value) == place
  }

  /** No file that another stored pipeline points at is gone. */
  ghost predicate FilesInUseKept(w: World, after: World, cwd: Location, id: string) {
    forall other, place :: other != id && PointsAt(w, cwd, other, place) && place in w.files ==> place in after.files
  }

  /** Another stored pipeline reaches the file by another spelling, which the comparison does not see. */
  predicate SpelledElsewhere(w: World, cwd: Location, id: string, path: Path) {
    exists other :: other in w.configs && other != id && PointsAt(w, cwd, other, Locate(cwd, path))
                    && ModelPath(w.configs[other]) != Some(path)
  }

  lemma UninstallKeepsFilesIff(w: World, id: string, force: bool, fallback: Option<Path>, env: Env)
    requires Uninstall(w, id, force, fallback, env).ok && env.removes && Artifact(w, id, fallback).Some?
    ensures var path := Artifact(w, id, fallback).value;
            FilesInUseKept(w, Uninstall(w, id, force, fallback, env).w, env.cwd, id) <==>
            !(Locate(env.cwd, path) in w.files && SpelledElsewhere(w, env.cwd, id, path))
  {
    var path := Artifact(w, id, fallback).value;
    var place := Locate(env.cwd, path);
    var after := Uninstall(w, id, force, fallback, env).w;
    assert after.files == w.files - {place};
    assert !UsedByOther(w, id, path);
    if place in w.files && SpelledElsewhere(w, env.cwd, id, path) {
      var other :| other in w.configs && other != id && PointsAt(w, env.cwd, other, place)
                   && ModelPath(w.configs[other]) != Some(path);
      assert place !in after.files;
    }
    if !(place in w.files && SpelledElsewhere(w, env.cwd, id, path)) {
      forall other, x | other != id && PointsAt(w, env.cwd, other, x) && x in w.files ensures x in after.files {
        if place in w.files {
          NotSpelledElsewhere(w, env.cwd, id, path, other);
        }
      }
    }
  }

  lemma NotSpelledElsewhere(w: World, cwd: Location, id: string, path: Path, other: string)
    requires !SpelledElsewhere(w, cwd, id, path) && !UsedByOther(w, id, path) && other != id
    ensures !PointsAt(w, cwd, other, Locate(cwd, path))
  {
  }

  lemma UninstallIff(w: World, cmd: Command, env: Env)
    requires cmd.UninstallModel?
    ensures Handle(w, cmd, env).ok <==> UninstallAllowed(w, cmd.id, cmd.force, cmd.filename, cmd.extension, env)
  {
  }

  /** Only uninstall deletes files, and a file in use goes if and only if the uninstall is allowed, can
      delete its file, and another stored pipeline reaches that file by another spelling. */
  lemma FilesInUseSurviveIff(w: World, cmd: Command, env: Env)
    ensures var r := Handle(w, cmd, env);
            (!cmd.UninstallModel? ==> r.w.files == w.files) && r.w.files <= w.files
            && (FilesInUseKept(w, r.w, env.cwd, cmd.id) <==>
                !(cmd.UninstallModel? && UninstallAllowed(w, cmd.id, cmd.force, cmd.filename, cmd.extension, env) && env.removes
                  && var path := Artifact(w, cmd.id, Fallback(env.cwd, cmd.filename, cmd.extension));
                     path.Some? && Locate(env.cwd, path.value) in w.files
                     && SpelledElsewhere(w, env.cwd, cmd.id, path.value)))
  {
    var r := Handle(w, cmd, env);
    OnlyUninstallDeletes(w, cmd, env);
    if cmd.UninstallModel? {
      UninstallIff(w, cmd, env);
    }
    if cmd.UninstallModel? && r.ok && env.removes
       && Artifact(w, cmd.id, Fallback(env.cwd, cmd.filename, cmd.extension)).Some? {
      UninstallKeepsFilesIff(w, cmd.id, cmd.force, Fallback(env.cwd, cmd.filename, cmd.extension), env);
    }
  }

  lemma OnlyUninstallDeletes(w: World, cmd: Command, env: Env)
    ensures var r := Handle(w, cmd, env);
            r.w.files <= w.files
            && (r.w.files == w.files
                || (cmd.UninstallModel? && r.ok && env.removes
                    && Artifact(w, cmd.id, Fallback(env.cwd, cmd.filename, cmd.extension)).Some?))
  {
    match cmd
    case StartModel(id, config) => StartKeepsFiles(w, id, Some(config), env);
    case StartInference(id) => StartKeepsFiles(w, id, None, env);
    case StartServing(id, port, host, alias) =>
      if id in w.configs { StartKeepsFiles(Rewrite(w, id, Serving(w.configs[id], port, host, alias)), id, None, env); }
    case UpdatePipeline(id, config) => StartKeepsFiles(w, id, Some(config), env);
    case UninstallModel(id, force, filename, extension) =>
      UninstallSteps(w, id, force, Fallback(env.cwd, filename, extension), env);
    case StopModel(_) =>
    case DeployCommit(_, _) =>
  }

  lemma StartKeepsFiles(w: World, id: string, given: Option<PipelineConfig>, env: Env)
    ensures Start(w, id, given, env).w.files == w.files
  {
  }

  /** Such a command, for any working directory: the stored path is relative, the one the command
      names is absolute, and the file goes while a stored pipeline uses it. */
  lemma RelativePathIsNotSeen(w: World, other: string, id: string, force: bool, name: string, extension: string, env: Env)
    requires other in w.configs && id !in w.configs && id !in w.running && env.removes
    requires IsSafeBasename(name) && IsSafeExtension(extension) && extension[0] != '.'
    requires "model_path" in w.configs[other].source.args
    requires w.configs[other].source.args["model_path"] == "models/" + (name + "." + extension)
    requires forall x :: x in w.configs && ModelPath(w.configs[x]).Some? ==> !ModelPath(w.configs[x]).value.absolute
    ensures var r := Handle(w, UninstallModel(id, force, name, extension), env);
            var place := Locate(env.cwd, ModelPath(w.configs[other]).value);
            r.ok && other in r.w.configs && r.w.configs[other] == w.configs[other]
            && place !in r.w.files && (place in w.files ==> !FilesInUseKept(w, r.w, env.cwd, id))
  {
    var file := name + "." + extension;
    assert file == name + ("." + extension) == name + Dotted(extension);
    ModelsPath(file);
    assert ModelPath(w.configs[other]) == Some(Path(false, ["models", file]));
    var path := Fallback(env.cwd, name, extension).value;
    assert Locate(env.cwd, path) == Locate(env.cwd, Path(false, ["models", file]));
    assert !UsedByOther(w, id, path);
    var r := Handle(w, UninstallModel(id, force, name, extension), env);
    assert r.ok && r.w.configs == w.configs - {id};
    assert PointsAt(w, env.cwd, other, Locate(env.cwd, path));
  }

  /** A world with one stored, stopped pipeline. */
  function OneStored(meta: Meta, c: PipelineConfig, files: set<Location>): (w: World) {
    World(AgentConfig(meta, []), map[c.id := c], {}, map[], 0, AgentConfig(meta, [c]), files, true, false)
  }

  lemma OneStoredMirrors(meta: Meta, c: PipelineConfig, files: set<Location>)
    ensures Mirror(OneStored(meta, c, files))
  {
    forall id ensures Lookup([c], id) == if id == c.id then Some(c) else None {
      assert Lookup([c], id) == if c.id == id then Some(c) else Lookup([c][1..], id);
    }
  }

  /** From one stored pipeline: the file goes while memory and disk still define the pipeline that uses it. */
  lemma FileInUseGoes(meta: Meta, c: PipelineConfig, id: string, force: bool, name: string, extension: string, env: Env)
    requires env.removes && id != c.id
    requires IsSafeBasename(name) && IsSafeExtension(extension) && extension[0] != '.'
    requires "model_path" in c.source.args && c.source.args["model_path"] == "models/" + (name + "." + extension)
    ensures ModelPath(c).Some?
    ensures var place := Locate(env.cwd, ModelPath(c).value);
            var w := OneStored(meta, c, {place});
            var r := Handle(w, UninstallModel(id, force, name, extension), env);
            Mirror(w) && r.ok && Mirror(r.w) && c.id in r.w.configs && place !in r.w.files
  {
    ModelsPath(name + "." + extension);
    var place := Locate(env.cwd, ModelPath(c).value);
    OneStoredMirrors(meta, c, {place});
    FileInUseIsDeleted(OneStored(meta, c, {place}), c.id, id, force, name, extension, env);
  }

  lemma FileInUseIsDeleted(w: World, other: string, id: string, force: bool, name: string, extension: string, env: Env)
    requires Mirror(w) && w.configs.Keys == {other} && w.running == map[] && id != other && env.removes
    requires IsSafeBasename(name) && IsSafeExtension(extension) && extension[0] != '.'
    requires "model_path" in w.configs[other].source.args
    requires w.configs[other].source.args["model_path"] == "models/" + (name + "." + extension)
    ensures ModelPath(w.configs[other]).Some?
    ensures var r := Handle(w, UninstallModel(id, force, name, extension), env);
            r.ok && Mirror(r.w) && other in r.w.configs && Locate(env.cwd, ModelPath(w.configs[other]).value) !in r.w.files
  {
    ModelsPath(name + "." + extension);
    HandleMirrorIff(w, UninstallModel(id, force, name, extension), env);
    RelativePathIsNotSeen(w, other, id, force, name, extension, env);
  }

  const EXAMPLE_NAME := "llama-3-8b.Q4_K_M"
  const EXAMPLE_EXTENSION := "gguf"

  lemma ExampleNamesAreSafe()
    ensures IsSafeBasename(EXAMPLE_NAME) && IsSafeExtension(EXAMPLE_EXTENSION) && EXAMPLE_EXTENSION[0] != '.'
  {
  }

  /** With the file names of the wire format's own examples: a pipeline is deployed with the relative
      path, and an uninstall like the example's, but for another id, names the file. */
  lemma ExampleNamesDeleteAFileInUse(meta: Meta, c: PipelineConfig, id: string, force: bool, env: Env)
    requires env.removes && id != c.id
    requires "model_path" in c.source.args
    requires c.source.args["model_path"] == "models/" + (EXAMPLE_NAME + "." + EXAMPLE_EXTENSION)
    ensures ModelPath(c).Some?
    ensures var place := Locate(env.cwd, ModelPath(c).value);
            var w := OneStored(meta, c, {place});
            var r := Handle(w, UninstallModel(id, force, EXAMPLE_NAME, EXAMPLE_EXTENSION), env);
            Mirror(w) && r.ok && Mirror(r.w) && c.id in r.w.configs && place !in r.w.files
  {
    ExampleNamesAreSafe();
    FileInUseGoes(meta, c, id, force, EXAMPLE_NAME, EXAMPLE_EXTENSION, env);
  }

  // --------------------------------------------- what the other commands mean

  /** The stored and the persisted definition are `c`, and the active mark is the one before. */
  ghost predicate NowDefinedAs(before: World, after: World, id: string, c: PipelineConfig) {
    id in after.configs && after.configs[id] == c
    && Lookup(after.saved.pipelines, id).Some? && Definition(Lookup(after.saved.pipelines, id).value) == Definition(c)
    && (after.running == before.running ==> IsActive(after.saved.pipelines, id) == IsActive(before.saved.pipelines, id))
  }

  /** A committed deploy stores and persists exactly its config, and touches nothing that runs. */
  lemma DeployedMeans(w: World, id: string, c: PipelineConfig)
    ensures var r := Deploy(w, id, c);
            (r.ok <==> c.id == id) && r.w.running == w.running && (if r.ok then NowDefinedAs(w, r.w, id, c) else r.w == w)
  {
    LookupUpsert(w.saved.pipelines, c, id);
  }

  /** An update that succeeds stores and persists its config and keeps the pipeline running or stopped, as it was. */
  lemma UpdatedMeans(w: World, id: string, c: PipelineConfig, env: Env)
    requires Mirror(w)
    ensures var r := Update(w, id, c, env);
            r.ok ==> c.id == id && NowDefinedAs(w, r.w, id, c) && (id in r.w.running <==> id in w.running)
  {
    if c.id == id {
      LookupUpsert(w.saved.pipelines, c, id);
      if id in w.running && Start(w, id, Some(c), env).ok {
        StartedMeans(w, id, Some(c), env);
        TrackedIsStored(w, id);
      }
    }
  }

  /** START_SERVING on a stored pipeline: the four arguments are stored and persisted whether or
      not the start succeeds, every other argument is kept, and on success it runs that way. */
  lemma {:induction false} ServedMeans(w: World, id: string, port: string, host: string, alias: string, env: Env)
    requires Mirror(w) && id in w.configs
    ensures var r := Serve(w, id, port, host, alias, env);
            var args := w.configs[id].source.args;
            id in r.w.configs
            && var now := r.w.configs[id].source.args;
               "mode" in now && now["mode"] == "serve" && "port" in now && now["port"] == port
               && "host" in now && now["host"] == host && "alias" in now && now["alias"] == alias
               && (forall k :: k in args && k !in ["mode", "port", "host", "alias"] ==> k in now && now[k] == args[k])
               && Lookup(r.w.saved.pipelines, id).Some? && Lookup(r.w.saved.pipelines, id).value.source.args == now
               && (r.ok ==> id in r.w.running && r.w.running[id].built == r.w.configs[id] && r.w.running[id].started)
  {
    var c := Serving(w.configs[id], port, host, alias);
    var rewritten := Rewrite(w, id, c);
    RewriteKeepsMirror(w, id, c);
    StartStored(rewritten, id, env);
  }

  // A start from the stored config keeps it stored and persisted, and runs on it.
  lemma {:induction false} StartStored(w: World, id: string, env: Env)
    requires Mirror(w) && id in w.configs
    ensures var r := Start(w, id, None, env);
            id in r.w.configs && r.w.configs[id] == w.configs[id]
            && Lookup(r.w.saved.pipelines, id).Some?
            && Definition(Lookup(r.w.saved.pipelines, id).value) == Definition(w.configs[id])
            && (r.ok ==> id in r.w.running && r.w.running[id].built == w.configs[id] && r.w.running[id].started)
  {
    if Start(w, id, None, env).ok {
      StartedMeans(w, id, None, env);
    } else {
      FailedStartKeepsConfigsIff(w, id, None, env);
      assert Lookup(w.saved.pipelines, id).Some?;
    }
  }

  /** What one pipeline looks like: its thread, its stored config, its persisted entry. */
  ghost predicate SamePipeline(a: World, b: World, x: string) {
    (x in a.running <==> x in b.running) && (x in a.running ==> a.running[x] == b.running[x])
    && (x in a.configs <==> x in b.configs) && (x in a.configs ==> a.configs[x] == b.configs[x])
    && Lookup(a.saved.pipelines, x) == Lookup(b.saved.pipelines, x)
  }

  lemma StopTouches(w: World, id: string, stops: bool, x: string)
    requires x != id
    ensures SamePipeline(w, Stop(w, id, stops).w, x)
  {
    LookupSetActive(w.saved.pipelines, id, false, x);
  }

  lemma LaunchTouches(w: World, id: string, given: Option<PipelineConfig>, conf: PipelineConfig, x: string)
    requires x != id && x != conf.id
    ensures SamePipeline(w, Launch(w, id, given, conf), x) && SamePipeline(w, Register(w, id, given, conf, false), x)
  {
    LookupUpsert(w.saved.pipelines, conf, x);
    LookupSetActive(Upsert(w.saved.pipelines, conf), id, true, x);
  }

  lemma StartTouches(w: World, id: string, given: Option<PipelineConfig>, env: Env, x: string)
    requires x != id && (Chosen(w, id, given).Some? ==> x != Chosen(w, id, given).value.id)
    ensures SamePipeline(w, Start(w, id, given, env).w, x)
  {
    StopTouches(w, id, env.stops, x);
    if Chosen(w, id, given).Some? {
      LaunchTouches(Stop(w, id, env.stops).w, id, given, Chosen(w, id, given).value, x);
    }
  }

  lemma UninstallTouches(w: World, id: string, force: bool, fallback: Option<Path>, env: Env, x: string)
    requires x != id
    ensures SamePipeline(w, Uninstall(w, id, force, fallback, env).w, x)
  {
    StopTouches(w, id, env.stops, x);
    LookupWithout(Stop(w, id, env.stops).w.saved.pipelines, id, x);
  }

  lemma ServeTouches(w: World, id: string, port: string, host: string, alias: string, env: Env, x: string)
    requires x != id && Keyed(w.configs)
    ensures SamePipeline(w, Serve(w, id, port, host, alias, env).w, x)
  {
    if id in w.configs {
      var c := Serving(w.configs[id], port, host, alias);
      LookupUpsert(w.saved.pipelines, c, x);
      StartTouches(Rewrite(w, id, c), id, None, env, x);
    }
  }

  lemma StoreTouches(w: World, id: string, c: PipelineConfig, x: string)
    requires x != id
    ensures SamePipeline(w, Deploy(w, id, c).w, x)
  {
    LookupUpsert(w.saved.pipelines, c, x);
  }

  lemma UpdateTouches(w: World, id: string, c: PipelineConfig, env: Env, x: string)
    requires x != id
    ensures SamePipeline(w, Update(w, id, c, env).w, x)
  {
    StoreTouches(w, id, c, x);
    if c.id == id {
      StartTouches(w, id, Some(c), env, x);
    }
  }

  /** A command changes nothing of any pipeline but the one it addresses and, for a START_MODEL, the
      one its config names. */
  lemma CommandsTouchOnlyTheirPipeline(w: World, cmd: Command, env: Env, x: string)
    requires Mirror(w) && x != cmd.id && (cmd.StartModel? ==> x != cmd.config.id)
    ensures SamePipeline(w, Handle(w, cmd, env).w, x)
  {
    match cmd
    case StartModel(id, config) => StartTouches(w, id, Some(config), env, x);
    case StartInference(id) => StartTouches(w, id, None, env, x);
    case StopModel(id) => StopTouches(w, id, env.stops, x);
    case StartServing(id, port, host, alias) => ServeTouches(w, id, port, host, alias, env, x);
    case DeployCommit(id, config) => StoreTouches(w, id, config, x);
    case UpdatePipeline(id, config) => UpdateTouches(w, id, config, env, x);
    case UninstallModel(id, force, filename, extension) =>
      UninstallTouches(w, id, force, Fallback(env.cwd, filename, extension), env, x);
  }
}
