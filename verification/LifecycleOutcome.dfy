/**
 What each lifecycle command leaves behind, told from the world before it and the answers of the
 environment alone (src/link/app/runtime.py:203-305, 471-586, 812-823, 887-927, 955-1040): when it
 succeeds, what it changes, and what a refused or failed one keeps.
 */
module LifecycleOutcome {
  import opened Common
  import opened SavedState
  import opened ModelFiles
  import opened Lifecycle

  /** The pipeline has a live thread that outlives the join. */
  predicate Stuck(w: World, id: string, env: Env) { id in w.running && w.running[id].started && !env.stops }

  /** Saved by id: this entry here, every other one as before. */
  ghost predicate SavedBut(before: World, after: World, id: string, entry: Option<PipelineConfig>) {
    after.saved.meta == before.saved.meta
    && forall x :: Lookup(after.saved.pipelines, x) == if x == id then entry else Lookup(before.saved.pipelines, x)
  }

  function Flagged(c: Option<PipelineConfig>, active: bool): (r: Option<PipelineConfig>) {
    if c.Some? then Some(c.value.(active := active)) else None
  }

  /** The pipeline is as it was, or, if it was tracked, no longer tracked and marked inactive; all else is as before. */
  ghost predicate Halted(before: World, after: World, id: string) {
    if id !in before.running then after == before
    else after == before.(running := before.running - {id}, saved := after.saved)
         && SavedBut(before, after, id, Flagged(Lookup(before.saved.pipelines, id), false))
  }

  // ---------------------------------------------------------------------- stop

  /** STOP_MODEL fails if and only if a live thread does not stop, and then nothing has changed. */
  lemma StopOutcome(w: World, id: string, env: Env)
    ensures var r := Handle(w, StopModel(id), env);
            if Stuck(w, id, env) then r == Outcome(w, false) else r.ok && Halted(w, r.w, id)
  {
    StopHalts(w, id, env.stops);
  }

  lemma StopHalts(w: World, id: string, stops: bool)
    ensures var r := Stop(w, id, stops);
            if id in w.running && w.running[id].started && !stops then r == Outcome(w, false) else r.ok && Halted(w, r.w, id)
  {
    forall x ensures Lookup(SetActive(w.saved.pipelines, id, false), x) ==
                     if x == id then Flagged(Lookup(w.saved.pipelines, id), false) else Lookup(w.saved.pipelines, x) {
      LookupSetActive(w.saved.pipelines, id, false, x);
    }
  }

  // --------------------------------------------------------------------- start

  /** What is saved after a thread was started: the config under the id it carries, and the mark of the id started. */
  ghost predicate SavedAsStarted(before: World, after: World, id: string, conf: PipelineConfig) {
    after.saved.meta == before.saved.meta
    && forall x :: Lookup(after.saved.pipelines, x) ==
                   if x == conf.id then Some(conf.(active := x == id || IsActive(before.saved.pipelines, x)))
                   else if x == id then Flagged(Lookup(before.saved.pipelines, x), true)
                   else Lookup(before.saved.pipelines, x)
  }

  /** A new pipeline is tracked; the config, if one came with the command, is stored; nothing else but what is saved changes. */
  predicate Placed(before: World, after: World, id: string, given: Option<PipelineConfig>, conf: PipelineConfig, started: bool) {
    after == before.(
      configs := if given.Some? then before.configs[id := conf] else before.configs,
      shared := if given.Some? then before.shared - {id} else before.shared,
      running := before.running[id := Instance(before.next, conf, started)],
      next := before.next + 1,
      saved := after.saved)
  }

  /** All that a start can come to. */
  ghost predicate Started(w: World, id: string, given: Option<PipelineConfig>, env: Env, r: Outcome) {
    var conf := if given.Some? then given else if id in w.configs then Some(w.configs[id]) else None;
    if given.Some? && id in w.running && id in w.configs && w.configs[id] == given.value then r == Outcome(w, true)
    else if conf.None? || Stuck(w, id, env) then r == Outcome(w, false)
    else if !env.builds then !r.ok && Halted(w, r.w, id)
    else
      && r.ok == env.starts && Placed(w, r.w, id, given, conf.value, env.starts)
      && if env.starts then SavedAsStarted(w, r.w, id, conf.value)
         else if id in w.running then SavedBut(w, r.w, id, Flagged(Lookup(w.saved.pipelines, id), false))
         else r.w.saved == w.saved
  }

  lemma LaunchSaves(w: World, halted: World, id: string, given: Option<PipelineConfig>, conf: PipelineConfig)
    requires Halted(w, halted, id)
    ensures SavedAsStarted(w, Launch(halted, id, given, conf), id, conf)
  {
    var list := halted.saved.pipelines;
    forall x ensures Lookup(SetActive(Upsert(list, conf), id, true), x) ==
                     if x == conf.id then Some(conf.(active := x == id || IsActive(w.saved.pipelines, x)))
                     else if x == id then Flagged(Lookup(w.saved.pipelines, x), true)
                     else Lookup(w.saved.pipelines, x) {
      LookupUpsert(list, conf, x);
      LookupSetActive(Upsert(list, conf), id, true, x);
    }
  }

  lemma LaunchPlaces(w: World, halted: World, id: string, given: Option<PipelineConfig>, conf: PipelineConfig, started: bool)
    requires Halted(w, halted, id)
    ensures Placed(w, Register(halted, id, given, conf, started), id, given, conf, started)
    ensures Placed(w, Launch(halted, id, given, conf), id, given, conf, true)
  {
    var one, other := Instance(w.next, conf, started), Instance(w.next, conf, true);
    assert halted.running[id := one] == w.running[id := one] && halted.running[id := other] == w.running[id := other];
  }

  lemma StartOutcome(w: World, id: string, given: Option<PipelineConfig>, env: Env)
    ensures Started(w, id, given, env, Start(w, id, given, env))
  {
    StopHalts(w, id, env.stops);
    if Launches(w, id, given, env) {
      LaunchOutcome(w, id, given, env);
    }
  }

  lemma LaunchOutcome(w: World, id: string, given: Option<PipelineConfig>, env: Env)
    requires Launches(w, id, given, env)
    ensures Started(w, id, given, env, Start(w, id, given, env))
  {
    var halted, conf := Stop(w, id, env.stops).w, Chosen(w, id, given).value;
    StopHalts(w, id, env.stops);
    LaunchPlaces(w, halted, id, given, conf, false);
    LaunchSaves(w, halted, id, given, conf);
  }

  /** START_MODEL and START_MODEL_INFERENCE: a live thread that does not stop, or a missing config, fails the
      command and changes nothing; a failed build leaves the pipeline stopped; otherwise it is tracked and
      stored, and saved if its thread starts. */
  lemma StartCommandOutcome(w: World, id: string, c: PipelineConfig, env: Env)
    ensures Started(w, id, Some(c), env, Handle(w, StartModel(id, c), env))
    ensures Started(w, id, None, env, Handle(w, StartInference(id), env))
  {
    StartOutcome(w, id, Some(c), env);
    StartOutcome(w, id, None, env);
  }

  // -------------------------------------------------------- deploy and update

  ghost predicate Defined(before: World, after: World, id: string, c: PipelineConfig) {
    after == before.(configs := before.configs[id := c], shared := before.shared - {id}, saved := after.saved)
    && SavedBut(before, after, id, Some(c.(active := IsActive(before.saved.pipelines, id))))
  }

  lemma StoreDefines(w: World, id: string, c: PipelineConfig)
    requires c.id == id
    ensures Defined(w, Store(w, id, c), id, c)
  {
    forall x ensures Lookup(Upsert(w.saved.pipelines, c), x) ==
                     if x == id then Some(c.(active := IsActive(w.saved.pipelines, id))) else Lookup(w.saved.pipelines, x) {
      LookupUpsert(w.saved.pipelines, c, x);
    }
  }

  /** A deploy commit and an update refuse a config that carries another id. A commit, and an update of a pipeline
      that is not tracked, only store and save; an update of a tracked one is a start. */
  lemma DefineOutcome(w: World, id: string, c: PipelineConfig, env: Env)
    ensures var deploy, update := Handle(w, DeployCommit(id, c), env), Handle(w, UpdatePipeline(id, c), env);
            if c.id != id then deploy == update == Outcome(w, false)
            else deploy.ok && Defined(w, deploy.w, id, c)
                 && if id in w.running then Started(w, id, Some(c), env, update) else update == deploy
  {
    StartOutcome(w, id, Some(c), env);
    if c.id == id {
      StoreDefines(w, id, c);
    }
  }

  // ------------------------------------------------------------------- serving

  /** The stored config serves: its four arguments are these, all else of it is as before; it is saved, and
      seen in the agent config if that owns the object. */
  ghost predicate Rewritten(before: World, after: World, id: string, port: string, host: string, alias: string) {
    && id in before.configs && id in after.configs
    && (var was, now := before.configs[id], after.configs[id];
        && now == was.(source := Component(was.source.kind, now.source.args))
        && now.source.args == was.source.args + map["mode" := "serve", "port" := port, "host" := host, "alias" := alias]
        && after == before.(configs := before.configs[id := now], agent := after.agent, saved := after.saved)
        && SavedBut(before, after, now.id, Some(now.(active := IsActive(before.saved.pipelines, now.id))))
        && after.agent.meta == before.agent.meta
        && if id !in before.shared then after.agent == before.agent
           else forall x :: Lookup(after.agent.pipelines, x) ==
                            if x == now.id then Some(now.(active := IsActive(before.agent.pipelines, x)))
                            else Lookup(before.agent.pipelines, x))
  }

  lemma {:induction false} RewriteServes(w: World, id: string, port: string, host: string, alias: string)
    requires id in w.configs
    ensures Rewritten(w, Rewrite(w, id, Serving(w.configs[id], port, host, alias)), id, port, host, alias)
  {
    var c := Serving(w.configs[id], port, host, alias);
    assert c.source.args == w.configs[id].source.args + map["mode" := "serve", "port" := port, "host" := host, "alias" := alias];
    forall x ensures Lookup(Upsert(w.saved.pipelines, c), x) ==
                     if x == c.id then Some(c.(active := IsActive(w.saved.pipelines, c.id))) else Lookup(w.saved.pipelines, x) {
      LookupUpsert(w.saved.pipelines, c, x);
    }
    forall x ensures Lookup(Upsert(w.agent.pipelines, c), x) ==
                     if x == c.id then Some(c.(active := IsActive(w.agent.pipelines, c.id))) else Lookup(w.agent.pipelines, x) {
      LookupUpsert(w.agent.pipelines, c, x);
    }
  }

  /** START_SERVING: refused without a stored config; otherwise the config is rewritten, and then it is a start from there. */
  lemma {:induction false} ServeOutcome(w: World, id: string, port: string, host: string, alias: string, env: Env) returns (mid: World)
    ensures var r := Handle(w, StartServing(id, port, host, alias), env);
            if id !in w.configs then r == Outcome(w, false)
            else Rewritten(w, mid, id, port, host, alias) && Started(mid, id, None, env, r)
  {
    mid := w;
    if id in w.configs {
      mid := Rewrite(w, id, Serving(w.configs[id], port, host, alias));
      RewriteServes(w, id, port, host, alias);
      StartOutcome(mid, id, None, env);
    }
  }

  // ----------------------------------------------------------------- uninstall

  /** One path component, and no way out of the directory. */
  predicate Plain(name: string) { name != "." && name != ".." && '/' !in name && '\\' !in name && '\0' !in name }

  /** The path the uninstall is about: the stored one, else the named file under models/ of the working directory. */
  function FileMeant(w: World, id: string, filename: string, extension: string, cwd: Location): (r: Option<Path>) {
    if id in w.configs && "model_path" in w.configs[id].source.args && w.configs[id].source.args["model_path"] != ""
    then Some(ParsePath(w.configs[id].source.args["model_path"]))
    else if filename == "" then None
    else Some(Path(true, cwd + ["models", filename + if extension == "" || extension[0] == '.' then extension else "." + extension]))
  }

  /** Another stored config has that path. */
  ghost predicate SharedFile(w: World, id: string, path: Path) {
    exists other :: other in w.configs && other != id && "model_path" in w.configs[other].source.args
      && w.configs[other].source.args["model_path"] != "" && ParsePath(w.configs[other].source.args["model_path"]) == path
  }

  /** The pipeline, its config and its saved entry are gone, and its file if it can be removed; all else is as before. */
  ghost predicate Gone(before: World, after: World, id: string, path: Option<Path>, env: Env) {
    after == before.(running := before.running - {id}, configs := before.configs - {id}, shared := before.shared - {id},
                     files := if path.Some? && env.removes then before.files - {Locate(env.cwd, path.value)} else before.files,
                     saved := after.saved)
    && SavedBut(before, after, id, None)
  }

  /** UNINSTALL_MODEL: refused, with nothing changed, for names that are not plain, for a tracked pipeline
      without the force flag and for a live thread that does not stop; refused after the stop for a file that
      another stored config names; otherwise everything of the pipeline is gone. */
  lemma {:induction false} UninstallOutcome(w: World, id: string, force: bool, filename: string, extension: string, env: Env)
    ensures var r := Handle(w, UninstallModel(id, force, filename, extension), env);
            var path := FileMeant(w, id, filename, extension, env.cwd);
            if !Plain(filename) || !Plain(extension) || (id in w.running && !force) || Stuck(w, id, env) then r == Outcome(w, false)
            else if path.Some? && SharedFile(w, id, path.value) then !r.ok && Halted(w, r.w, id)
            else r.ok && Gone(w, r.w, id, path, env)
  {
    StopHalts(w, id, env.stops);
    var path := FileMeant(w, id, filename, extension, env.cwd);
    assert PlainNames(filename, extension) <==> Plain(filename) && Plain(extension);
    assert path == Artifact(w, id, Fallback(env.cwd, filename, extension));
    if path.Some? {
      SharedFileIsUsed(w, id, path.value);
    }
    if !Stuck(w, id, env) {
      ForgetGone(w, Stop(w, id, env.stops).w, id, path, env);
    }
  }

  lemma SharedFileIsUsed(w: World, id: string, path: Path)
    ensures SharedFile(w, id, path) <==> UsedByOther(w, id, path)
  {
    forall other | other in w.configs
      ensures ModelPath(w.configs[other]) == Some(path) <==>
              "model_path" in w.configs[other].source.args && w.configs[other].source.args["model_path"] != ""
              && ParsePath(w.configs[other].source.args["model_path"]) == path {
    }
  }

  lemma ForgetGone(w: World, halted: World, id: string, path: Option<Path>, env: Env)
    requires Halted(w, halted, id)
    ensures Gone(w, Delete(Forget(halted, id), path, env), id, path, env)
  {
    assert halted.running == w.running - {id};
    forall x ensures Lookup(Without(halted.saved.pipelines, id), x) == if x == id then None else Lookup(w.saved.pipelines, x) {
      LookupWithout(halted.saved.pipelines, id, x);
    }
  }

  // ----------------------------------------------- no live thread is orphaned

  lemma StartKeepsLive(w: World, id: string, given: Option<PipelineConfig>, env: Env, x: string)
    requires x in w.running && w.running[x].started && (id == x ==> !env.stops)
    ensures var r := Start(w, id, given, env).w; x in r.running && r.running[x] == w.running[x]
  {
    StopHalts(w, id, env.stops);
  }

  /** Whatever the command, a live thread that does not stop is still tracked, and is the same one. */
  lemma {:induction false} LiveThreadStaysTracked(w: World, cmd: Command, env: Env, x: string)
    requires x in w.running && w.running[x].started && (cmd.id == x ==> !env.stops)
    ensures var r := Handle(w, cmd, env).w; x in r.running && r.running[x] == w.running[x]
  {
    match cmd
    case StartModel(id, c) => StartKeepsLive(w, id, Some(c), env, x);
    case StartInference(id) => StartKeepsLive(w, id, None, env, x);
    case StopModel(id) => StopOutcome(w, id, env);
    case StartServing(id, port, host, alias) =>
      if id in w.configs { StartKeepsLive(Rewrite(w, id, Serving(w.configs[id], port, host, alias)), id, None, env, x); }
    case DeployCommit(_, _) =>
    case UpdatePipeline(id, c) => StartKeepsLive(w, id, Some(c), env, x);
    case UninstallModel(id, force, filename, extension) => UninstallOutcome(w, id, force, filename, extension, env);
  }

  /** A run of commands, each with the answers it met. */
  function Commanded(w: World, run: seq<(Command, Env)>): (r: World)
    decreases |run|
  {
    if run == [] then w else Commanded(Handle(w, run[0].0, run[0].1).w, run[1..])
  }

  /** So over every run of commands: a thread that was started stays tracked, as long as it has not stopped when asked. */
  lemma {:induction false} NoLiveThreadIsOrphaned(w: World, run: seq<(Command, Env)>, x: string)
    requires x in w.running && w.running[x].started && forall i :: 0 <= i < |run| && run[i].0.id == x ==> !run[i].1.stops
    ensures x in Commanded(w, run).running && Commanded(w, run).running[x] == w.running[x]
    decreases |run|
  {
    if run != [] {
      LiveThreadStaysTracked(w, run[0].0, run[0].1, x);
      NoLiveThreadIsOrphaned(Handle(w, run[0].0, run[0].1).w, run[1..], x);
    }
  }
}
