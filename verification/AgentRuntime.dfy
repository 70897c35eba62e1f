/**
 `AgentRuntime` itself (src/link/app/runtime.py:67-88, 203-374, 471-586, 797-823, 887-927, 955-1040):
 the operations of `Lifecycle` and `Recovery` performed in place, each proved against its function.
 The state manager may have loaded a session or not; `StartAgent` is how the program starts one
 (src/link/main.py:41-123).
 */
module Runtime {
  import opened Common
  import opened SavedState
  import opened ModelFiles
  import opened Lifecycle
  import opened Recovery
  import SessionNames

  /** The runtime itself, updating its fields and the state manager in place. */
  class AgentRuntime {
    var agent: AgentConfig
    var configs: map<string, PipelineConfig>
    var shared: set<string>
    var running: map<string, Instance>
    var next: nat
    var files: set<Location>
    var up: bool
    var restart: bool
    const state: StateManager

    ghost predicate Valid()
      reads this, state
    {
      state.Consistent()
    }

    // What the state manager holds, or would load, is what is saved.
    ghost function View(): (w: World)
      reads this, state
      requires Valid()
    {
      World(agent, configs, shared, running, next, state.Current(), files, up, restart)
    }

    constructor (config: AgentConfig, state: StateManager, files: set<Location>)
      requires state.Consistent()
      ensures this.state == state && Valid() && View() == Boot(config, files).(saved := state.Current())
    {
      this.state := state;
      agent, configs, shared := config, Stored(config.pipelines), IdsOf(config.pipelines);
      running, next := map[], 0;
      this.files, up, restart := files, true, false;
    }

    method StopPipeline(id: string, stops: bool) returns (ok: bool)
      requires Valid()
      modifies this, state
      ensures Valid() && Outcome(View(), ok) == Stop(old(View()), id, stops)
    {
      if id !in running {
        return true;
      }
      if !stops && running[id].started {
        return false;
      }
      running := running - {id};
      state.SetPipelineStatus(id, false);
      return true;
    }

    /** `raised` says that thread creation raised, which leaves the method before anything is persisted. */
    method StartPipeline(id: string, given: Option<PipelineConfig>, env: Env) returns (ok: bool, raised: bool)
      requires Valid()
      modifies this, state
      ensures Valid() && Outcome(View(), ok) == Start(old(View()), id, given, env)
      ensures raised <==> StartRaises(old(View()), id, given, env)
    {
      if given.Some? && id in running && id in configs && configs[id] == given.value {
        return true, false;
      }
      var conf := given;
      if conf.None? {
        if id !in configs {
          return false, false;
        }
        conf := Some(configs[id]);
      }
      if id in running {
        var stopped := StopPipeline(id, env.stops);
        if !stopped {
          return false, false;
        }
      }
      if !env.builds {
        return false, false;
      }
      ok := LaunchPipeline(id, given, conf.value, env.starts);
      return ok, !ok;
    }

    method LaunchPipeline(id: string, given: Option<PipelineConfig>, conf: PipelineConfig, starts: bool) returns (ok: bool)
      requires Valid()
      modifies this, state
      ensures Valid() && ok == starts
      ensures View() == if starts then Launch(old(View()), id, given, conf) else Register(old(View()), id, given, conf, false)
    {
      if given.Some? {
        configs, shared := configs[id := conf], shared - {id};
      }
      running, next := running[id := Instance(next, conf, starts)], next + 1;
      if !starts {
        return false;
      }
      state.UpdatePipelineConfig(conf);
      state.SetPipelineStatus(id, true);
      return true;
    }

    method StartServing(id: string, port: string, host: string, alias: string, env: Env) returns (ok: bool)
      requires Valid()
      modifies this, state
      ensures Valid() && Outcome(View(), ok) == Serve(old(View()), id, port, host, alias, env)
    {
      if id !in configs {
        return false;
      }
      var c := Serving(configs[id], port, host, alias);
      configs := configs[id := c];
      if id in shared {
        agent := agent.(pipelines := Upsert(agent.pipelines, c));
      }
      state.UpdatePipelineConfig(c);
      var raised;
      ok, raised := StartPipeline(id, None, env);
    }

    method CommitDeploy(id: string, c: PipelineConfig) returns (ok: bool)
      requires Valid()
      modifies this, state
      ensures Valid() && Outcome(View(), ok) == Deploy(old(View()), id, c)
    {
      if c.id != id {
        return false;
      }
      configs, shared := configs[id := c], shared - {id};
      state.UpdatePipelineConfig(c);
      return true;
    }

    method UpdatePipeline(id: string, c: PipelineConfig, env: Env) returns (ok: bool)
      requires Valid()
      modifies this, state
      ensures Valid() && Outcome(View(), ok) == Update(old(View()), id, c, env)
    {
      if c.id != id {
        return false;
      }
      if id in running {
        var raised;
        ok, raised := StartPipeline(id, Some(c), env);
      } else {
        configs, shared := configs[id := c], shared - {id};
        state.UpdatePipelineConfig(c);
        ok := true;
      }
    }

    /** The scan over the other stored configs for one that points at the same file. */
    method InUse(id: string, path: Path) returns (used: bool)
      requires Valid()
      ensures used == UsedByOther(View(), id, path)
    {
      var todo := configs.Keys;
      while todo != {}
        invariant todo <= configs.Keys
        invariant forall other :: other in configs && other !in todo && other != id ==> ModelPath(configs[other]) != Some(path)
        decreases |todo|
      {
        var other :| other in todo;
        if other != id && ModelPath(configs[other]) == Some(path) {
          return true;
        }
        todo := todo - {other};
      }
      return false;
    }

    method UninstallModel(id: string, force: bool, filename: string, extension: string, env: Env) returns (ok: bool)
      requires Valid()
      modifies this, state
      ensures Valid() && Outcome(View(), ok) == UninstallCommand(old(View()), id, force, filename, extension, env)
    {
      if !PlainNames(filename, extension) {
        return false;
      }
      UninstallHalves(View(), id, force, Fallback(env.cwd, filename, extension), env);
      if id in running {
        if !force {
          return false;
        }
        var stopped := StopPipeline(id, env.stops);
        if !stopped {
          return false;
        }
      }
      ok := RemoveArtifact(id, Fallback(env.cwd, filename, extension), env);
    }

    /** The second half of an uninstall, once the pipeline is stopped. */
    method RemoveArtifact(id: string, fallback: Option<Path>, env: Env) returns (ok: bool)
      requires Valid()
      modifies this, state
      ensures Valid()
      ensures var path := old(Artifact(View(), id, fallback));
              var inUse := path.Some? && old(UsedByOther(View(), id, path.value));
              Outcome(View(), ok) == if inUse then Outcome(old(View()), false)
                                     else Outcome(Delete(Forget(old(View()), id), path, env), true)
    {
      var path := fallback;
      if id in configs && ModelPath(configs[id]).Some? {
        path := ModelPath(configs[id]);
      }
      if path.Some? {
        var used := InUse(id, path.value);
        if used {
          return false;
        }
      }
      ForgetPipeline(id, path, env);
      return true;
    }

    method ForgetPipeline(id: string, path: Option<Path>, env: Env)
      requires Valid()
      modifies this, state
      ensures Valid() && View() == Delete(Forget(old(View()), id), path, env)
    {
      configs, shared := configs - {id}, shared - {id};
      state.RemovePipeline(id);
      if path.Some? && env.removes {
        files := files - {Locate(env.cwd, path.value)};
      }
    }

    method ReloadConfigs()
      requires Valid() && state.cache.Some?
      modifies this`configs, this`shared
      ensures Valid() && View() == Reload(old(View()))
    {
      var list := state.cache.value.pipelines;
      var i := 0;
      while i < |list|
        invariant 0 <= i <= |list|
        invariant configs + Stored(list[i..]) == old(configs) + Stored(list)
        invariant shared - IdsOf(list[i..]) == old(shared) - IdsOf(list)
      {
        var rest := list[i + 1..];
        assert list[i..] == [list[i]] + rest;
        StoredSplit(configs, list[i], rest);
        configs, shared := configs[list[i].id := list[i]], shared - {list[i].id};
        i := i + 1;
      }
      assert list[i..] == [];
    }

    /** Recovery on start-up; false when a start raised and the process ends. */
    method RecoverPipelines(envs: string -> Env) returns (ok: bool)
      requires Valid()
      modifies this, state
      ensures Valid() && Outcome(View(), ok) == Recover(old(View()), envs)
    {
      var loaded := state.LoadState(None);
      if loaded.None? {
        assert Reload(View()) == View();
        return true;
      }
      var ids := ToStart(loaded.value.pipelines);
      ReloadConfigs();
      ok := StartSaved(ids, envs);
    }

    method StartSaved(ids: seq<string>, envs: string -> Env) returns (ok: bool)
      requires Valid()
      modifies this, state
      ensures Valid() && Outcome(View(), ok) == StartEach(old(View()), ids, envs)
    {
      var j := 0;
      while j < |ids|
        invariant 0 <= j <= |ids| && Valid()
        invariant StartEach(View(), ids[j..], envs) == StartEach(old(View()), ids, envs)
      {
        var started, raised := StartPipeline(ids[j], None, envs(ids[j]));
        if raised {
          up := false;
          return false;
        }
        assert ids[j..][1..] == ids[j + 1..];
        j := j + 1;
      }
      return true;
    }
  }

  /** What the command line asks for: a session file, a raw config, or nothing. */
  datatype Request = Session(path: string) | Raw(config: Option<AgentConfig>) | Resume

  /** The config the agent comes up on: the session asked for, the raw config, the latest session, or
      else the fallback; none when what is needed does not load. */
  function StartConfig(listing: seq<string>, files: map<string, AgentConfig>, request: Request,
                       parses: AgentConfig -> bool, fallback: Option<AgentConfig>): (r: Option<AgentConfig>) {
    match request
    case Session(path) => if path in files && parses(files[path]) then Some(files[path]) else None
    case Raw(config) => config
    case Resume =>
      var latest := Latest(listing, files);
      if latest.Some? && parses(latest.value) then latest else fallback
  }

  /** It comes up on a session asked for only if that loads, and on nothing else then; on a raw config whatever is on
      disk; and otherwise on the last session in string order, or on the fallback if that does not load. */
  lemma {:induction false} StartConfigMeans(listing: seq<string>, files: map<string, AgentConfig>, request: Request,
                                            parses: AgentConfig -> bool, fallback: Option<AgentConfig>, config: AgentConfig)
    ensures StartConfig(listing, files, request, parses, fallback) == Some(config) <==>
            match request
            case Session(path) => (path, config) in files.Items && parses(config)
            case Raw(raw) => raw == Some(config)
            case Resume =>
              var last := if listing == [] then "" else SessionNames.LastSorted(listing);
              var loads := listing != [] && last in files && parses(files[last]);
              if loads then (last, config) in files.Items else fallback == Some(config)
  {
  }

  /** The program's start: whatever is on disk and whatever is asked for, it ends, or the runtime is
      up on that config and on a loaded state manager whose session file holds it. */
  method StartAgent(state: StateManager, request: Request, parses: AgentConfig -> bool, fallback: Option<AgentConfig>,
                    name: string, files: set<Location>) returns (runtime: AgentRuntime?)
    requires state.cache.None? && state.path.None?
    modifies state
    ensures var config := old(StartConfig(state.listing, state.files, request, parses, fallback));
            (runtime != null <==> config.Some?)
            && (runtime != null ==> fresh(runtime) && runtime.state == state && state.Ready() && runtime.Valid()
                                    && runtime.View() == Boot(config.value, files))
  {
    var config := None;
    match request {
      case Session(path) =>
        config := state.LoadState(Some(path));
        if config.None? || !parses(config.value) {
          return null;
        }
      case Raw(raw) =>
        if raw.None? {
          return null;
        }
        config := raw;
        state.Bootstrap(name, raw.value);
      case Resume =>
        config := state.LoadState(None);
        if config.None? || !parses(config.value) {
          if fallback.None? {
            return null;
          }
          config := fallback;
          state.Bootstrap(name, fallback.value);
        }
    }
    runtime := new AgentRuntime(config.value, state, files);
  }

  lemma {:induction false} StoredSplit(configs: map<string, PipelineConfig>, p: PipelineConfig, rest: seq<PipelineConfig>)
    ensures configs + Stored([p] + rest) == configs[p.id := p] + Stored(rest)
    ensures IdsOf([p] + rest) == {p.id} + IdsOf(rest)
  {
    assert ([p] + rest)[1..] == rest;
    assert forall q :: q in [p] + rest <==> q == p || q in rest;
  }
}
