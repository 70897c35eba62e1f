/**
 Recovery after a crash (src/link/app/runtime.py:347-374), and whole runs of commands and crashes.
 */
module Recovery {
  import opened Common
  import opened SavedState
  import opened ModelFiles
  import opened Lifecycle

  /** The dictionary a runtime builds from a list of pipelines: the last one with an id wins. */
  function Stored(list: seq<PipelineConfig>): (r: map<string, PipelineConfig>) {
    if list == [] then map[] else map[list[0].id := list[0]] + Stored(list[1..])
  }

  /** A fresh process: its config is what was saved, nothing runs yet. */
  function Boot(saved: AgentConfig, files: set<Location>): (r: World) {
    World(saved, Stored(saved.pipelines), IdsOf(saved.pipelines), map[], 0, saved, files, true, false)
  }

  /** Recovery reads the saved pipelines again, as objects of its own. */
  function Reload(w: World): (r: World) {
    w.(configs := w.configs + Stored(w.saved.pipelines), shared := w.shared - IdsOf(w.saved.pipelines))
  }

  function ToStart(list: seq<PipelineConfig>): (r: seq<string>) {
    if list == [] then [] else (if list[0].active then [list[0].id] else []) + ToStart(list[1..])
  }

  /** Start each in turn; one that fails does not stop the rest, one that raises does. */
  function StartEach(w: World, ids: seq<string>, envs: string -> Env): (r: Outcome)
    decreases |ids|
  {
    if ids == [] then Outcome(w, true)
    else
      var first := Start(w, ids[0], None, envs(ids[0]));
      if StartRaises(w, ids[0], None, envs(ids[0])) then Outcome(first.w.(up := false), false)
      else StartEach(first.w, ids[1..], envs)
  }

  /** Recovery in `run`: when a start raises, the process ends. */
  function Recover(w: World, envs: string -> Env): (r: Outcome) {
    StartEach(Reload(w), ToStart(w.saved.pipelines), envs)
  }

  lemma {:induction false} StoredIsLookup(list: seq<PipelineConfig>, id: string)
    requires UniqueIds(list)
    ensures id in Stored(list) <==> Lookup(list, id).Some?
    ensures id in Stored(list) ==> Stored(list)[id] == Lookup(list, id).value
    decreases |list|
  {
    if list != [] {
      UniqueTail(list);
      StoredIsLookup(list[1..], id);
      LookupIds(list[1..], id);
    }
  }

  lemma {:induction false} StoredAgrees(list: seq<PipelineConfig>)
    requires UniqueIds(list)
    ensures Agrees(Stored(list), list) && Keyed(Stored(list))
  {
    forall id
      ensures id in Stored(list) <==> Lookup(list, id).Some?
      ensures id in Stored(list) ==> Stored(list)[id] == Lookup(list, id).value
    {
      StoredIsLookup(list, id);
    }
  }

  lemma {:induction false} ToStartIsActive(list: seq<PipelineConfig>, id: string)
    requires UniqueIds(list)
    ensures id in ToStart(list) <==> IsActive(list, id)
    decreases |list|
  {
    if list != [] {
      UniqueTail(list);
      ToStartIsActive(list[1..], id);
      LookupIds(list[1..], id);
    }
  }

  lemma {:induction false} ToStartDistinct(list: seq<PipelineConfig>)
    requires UniqueIds(list)
    ensures Distinct(ToStart(list))
    decreases |list|
  {
    if list != [] {
      UniqueTail(list);
      ToStartDistinct(list[1..]);
      ToStartIsActive(list[1..], list[0].id);
      LookupIds(list[1..], list[0].id);
      assert list[0].id !in ToStart(list[1..]);
    }
  }

  lemma ReloadOfBoot(saved: AgentConfig, files: set<Location>)
    requires UniqueIds(saved.pipelines)
    ensures Reload(Boot(saved, files)) == Boot(saved, files).(shared := {})
    ensures Mirror(Reload(Boot(saved, files)))
  {
    StoredAgrees(saved.pipelines);
    var all := Stored(saved.pipelines);
    assert all + all == all;
    assert Reload(Boot(saved, files)) == Boot(saved, files).(shared := {});
  }

  /** What recovery takes in: every saved definition, whatever memory held under its id, as an object of its own;
      other stored configs stay. */
  lemma {:induction false} ReloadStores(w: World, id: string)
    requires UniqueIds(w.saved.pipelines)
    ensures var r, saved := Reload(w), Lookup(w.saved.pipelines, id);
            && (id in r.configs <==> id in w.configs || saved.Some?)
            && (id in r.configs ==> r.configs[id] == if saved.Some? then saved.value else w.configs[id])
            && (id in r.shared <==> id in w.shared && saved.None?)
            && r == w.(configs := r.configs, shared := r.shared)
  {
    StoredIsLookup(w.saved.pipelines, id);
    LookupIds(w.saved.pipelines, id);
  }

  // What one recovery start changes: nothing on disk, in definitions or in marks.
  lemma RecoveryStart(w: World, id: string, env: Env)
    requires Mirror(w) && id in w.configs && id !in w.running && IsActive(w.saved.pipelines, id)
    ensures var after := Start(w, id, None, env).w;
            Mirror(after) && after.configs == w.configs && after.files == w.files && after.up == w.up
            && after.agent == w.agent && after.restart == w.restart
            && after.running == if env.builds then w.running[id := Instance(w.next, w.configs[id], env.starts)] else w.running
    ensures forall x :: IsActive(Start(w, id, None, env).w.saved.pipelines, x) == IsActive(w.saved.pipelines, x)
  {
    StartMirrorIff(w, id, None, env);
    var c := w.configs[id];
    forall x ensures IsActive(SetActive(Upsert(w.saved.pipelines, c), id, true), x) == IsActive(w.saved.pipelines, x) {
      ActiveAfterEdits(w.saved.pipelines, c, id, true, x);
      ActiveAfterEdits(Upsert(w.saved.pipelines, c), c, id, true, x);
      LookupUpsert(w.saved.pipelines, c, id);
    }
  }

  /** Every one of these that builds can be started. */
  predicate AllStart(ids: seq<string>, envs: string -> Env) {
    forall id :: id in ids && envs(id).builds ==> envs(id).starts
  }

  /** What recovery leaves of a world: nothing lost, nothing added but attempted pipelines. */
  ghost predicate Recovered(w: World, after: World, ids: seq<string>, envs: string -> Env) {
    && Mirror(after) && after.configs == w.configs && after.files == w.files
    && after.agent == w.agent && after.restart == w.restart
    && (forall id :: id in after.running ==> id in w.running || (id in ids && envs(id).builds))
    && (forall id :: id in w.running ==> id in after.running && after.running[id] == w.running[id])
    && (forall id :: id in after.running && id !in w.running ==>
                       id in w.configs && after.running[id].built == w.configs[id])
    && (forall id :: IsActive(after.saved.pipelines, id) == IsActive(w.saved.pipelines, id))
  }

  lemma MirrorIgnoresUp(w: World)
    requires Mirror(w)
    ensures Mirror(w.(up := false))
  {
  }

  lemma {:induction false} StartEachRecovers(w: World, ids: seq<string>, envs: string -> Env)
    requires Mirror(w) && Distinct(ids)
    requires forall id :: id in ids ==> id in w.configs && id !in w.running && IsActive(w.saved.pipelines, id)
    ensures Recovered(w, StartEach(w, ids, envs).w, ids, envs)
    decreases |ids|
  {
    if ids != [] {
      var first := Start(w, ids[0], None, envs(ids[0])).w;
      RecoveryStart(w, ids[0], envs(ids[0]));
      RecoveredFirst(w, ids, envs);
      if StartRaises(w, ids[0], None, envs(ids[0])) {
        MirrorIgnoresUp(first);
      } else {
        StartEachRecovers(first, ids[1..], envs);
        RecoveredChain(w, first, StartEach(first, ids[1..], envs).w, ids, envs);
      }
    }
  }

  lemma {:induction false} RecoveredFirst(w: World, ids: seq<string>, envs: string -> Env)
    requires ids != [] && Mirror(w)
    requires ids[0] in w.configs && ids[0] !in w.running && IsActive(w.saved.pipelines, ids[0])
    ensures Recovered(w, Start(w, ids[0], None, envs(ids[0])).w, ids, envs)
  {
    RecoveryStart(w, ids[0], envs(ids[0]));
  }

  lemma {:induction false} RecoveredChain(w: World, first: World, after: World, ids: seq<string>, envs: string -> Env)
    requires ids != [] && Recovered(w, first, ids, envs) && Recovered(first, after, ids[1..], envs)
    ensures Recovered(w, after, ids, envs)
  {
    assert forall id :: id in ids[1..] ==> id in ids;
  }

  // It completes if and only if no thread that is needed cannot be created, and then every one that builds runs.
  lemma {:induction false} StartEachCompletes(w: World, ids: seq<string>, envs: string -> Env)
    requires Mirror(w) && Distinct(ids)
    requires forall id :: id in ids ==> id in w.configs && id !in w.running && IsActive(w.saved.pipelines, id)
    ensures var r := StartEach(w, ids, envs);
            (r.ok <==> AllStart(ids, envs)) && r.w.up == (w.up && r.ok)
            && (r.ok ==> forall id :: id in ids && envs(id).builds ==> id in r.w.running && r.w.running[id].started)
    decreases |ids|
  {
    if ids != [] {
      var first := Start(w, ids[0], None, envs(ids[0])).w;
      RecoveryStart(w, ids[0], envs(ids[0]));
      assert forall id :: id in ids <==> id == ids[0] || id in ids[1..];
      if !StartRaises(w, ids[0], None, envs(ids[0])) {
        StartEachCompletes(first, ids[1..], envs);
        if envs(ids[0]).builds {
          StartEachKeeps(first, ids[1..], envs, ids[0]);
        }
      }
    }
  }

  lemma {:induction false} StartEachKeeps(w: World, ids: seq<string>, envs: string -> Env, id: string)
    requires id in w.running && id !in ids
    ensures var r := StartEach(w, ids, envs).w; id in r.running && r.running[id] == w.running[id]
    decreases |ids|
  {
    if ids != [] && !StartRaises(w, ids[0], None, envs(ids[0])) {
      StartEachKeeps(Start(w, ids[0], None, envs(ids[0])).w, ids[1..], envs, id);
    }
  }

  /**
   A crash between two commands: recovery sets out to start every pipeline that was tracked, with
   the stored definition it had. It completes if and only if every marked pipeline that builds can
   be started; then what runs is exactly what was marked and builds. Either way the definitions
   and the marks survive, so whatever did not start is attempted again next time.
   */
  lemma RecoveryRestartsTracked(w: World, envs: string -> Env)
    requires Mirror(w)
    ensures var r := Recover(Boot(w.saved, w.files), envs);
            Mirror(r.w) && r.w.files == w.files && (r.w.up <==> r.ok) && r.w.agent == w.saved && !r.w.restart
            && (r.ok <==> forall id :: IsActive(w.saved.pipelines, id) && envs(id).builds ==> envs(id).starts)
            && (forall id :: id in w.running ==> id in ToStart(w.saved.pipelines))
            && (forall id :: id in r.w.running ==> IsActive(w.saved.pipelines, id) && envs(id).builds)
            && (r.ok ==> forall id :: IsActive(w.saved.pipelines, id) && envs(id).builds ==>
                                        id in r.w.running && r.w.running[id].started)
            && (forall id :: id in r.w.running ==>
                               id in w.configs && Definition(r.w.running[id].built) == Definition(w.configs[id]))
            && r.w.configs.Keys == w.configs.Keys
            && (forall id :: id in w.configs ==> Definition(r.w.configs[id]) == Definition(w.configs[id]))
            && (forall id :: IsActive(r.w.saved.pipelines, id) == IsActive(w.saved.pipelines, id))
  {
    var list := w.saved.pipelines;
    var booted := Reload(Boot(w.saved, w.files));
    ReloadOfBoot(w.saved, w.files);
    ToStartDistinct(list);
    forall id ensures id in ToStart(list) <==> IsActive(list, id) {
      ToStartIsActive(list, id);
    }
    BootedDefinitions(w);
    StartEachRecovers(booted, ToStart(list), envs);
    StartEachCompletes(booted, ToStart(list), envs);
  }

  lemma BootedDefinitions(w: World)
    requires Mirror(w)
    ensures var booted := Reload(Boot(w.saved, w.files));
            booted.configs.Keys == w.configs.Keys
            && forall id :: id in w.configs ==> Definition(booted.configs[id]) == Definition(w.configs[id])
  {
    ReloadOfBoot(w.saved, w.files);
    forall id
      ensures id in Stored(w.saved.pipelines) <==> id in w.configs
      ensures id in w.configs ==> Definition(Stored(w.saved.pipelines)[id]) == Definition(w.configs[id])
    {
      StoredIsLookup(w.saved.pipelines, id);
    }
  }

  /**
   A stop that reports success keeps the pipeline from coming back after a crash if and only if
   it was tracked or not marked active: one that failed to start at recovery keeps its mark, and
   stopping it does nothing.
   */
  lemma StoppedStaysStoppedIff(w: World, id: string, stops: bool, envs: string -> Env)
    requires Mirror(w) && Stop(w, id, stops).ok && envs(id).builds
    requires var stopped := Stop(w, id, stops).w; Recover(Boot(stopped.saved, stopped.files), envs).ok
    ensures var stopped := Stop(w, id, stops).w;
            id !in stopped.running
            && (id !in Recover(Boot(stopped.saved, stopped.files), envs).w.running
                <==> id in w.running || !IsActive(w.saved.pipelines, id))
  {
    var c := PipelineConfig(id, false, Component("", map[]), None);
    StopKeepsMirror(w, id, stops);
    RecoveryRestartsTracked(Stop(w, id, stops).w, envs);
    ActiveAfterEdits(w.saved.pipelines, c, id, false, id);
  }

  /** Such a run: a marked pipeline does not build at recovery, is stopped, and runs after the next crash. */
  lemma StoppedPipelineComesBack(meta: Meta, c: PipelineConfig)
    requires c.active
    ensures var broken := (id: string) => Env(true, false, true, true, []);
            var working := (id: string) => Env(true, true, true, true, []);
            var first := Recover(Boot(AgentConfig(meta, [c]), {}), broken);
            var stopped := Stop(first.w, c.id, true);
            var second := Recover(Boot(stopped.w.saved, stopped.w.files), working);
            first.ok && stopped.ok && second.ok && c.id in second.w.running && second.w.running[c.id].started
  {
    var broken := (id: string) => Env(true, false, true, true, []);
    var working := (id: string) => Env(true, true, true, true, []);
    var saved := AgentConfig(meta, [c]);
    ReloadOfBoot(saved, {});
    assert IsActive([c], c.id);
    RecoveryRestartsTracked(Reload(Boot(saved, {})), broken);
    var first := Recover(Boot(saved, {}), broken).w;
    assert c.id !in first.running;
    RecoveryRestartsTracked(first, working);
  }

  // --------------------------------------------------------------- whole runs

  datatype Event = Received(cmd: Command, env: Env) | Crashed(envs: string -> Env)

  /** A process that ended at recovery handles no command; the next start is another recovery. */
  function Next(w: World, e: Event): (r: World) {
    match e
    case Received(cmd, env) => if w.up then Handle(w, cmd, env).w else w
    case Crashed(envs) => Recover(Boot(w.saved, w.files), envs).w
  }

  function Run(w: World, events: seq<Event>): (r: World)
    decreases |events|
  {
    if events == [] then w else Run(Next(w, events[0]), events[1..])
  }

  predicate EventSafe(w: World, e: Event) { e.Received? && w.up ==> CommandSafe(w, e.cmd, e.env) }

  /** Every command of the run is safe when it is handled. */
  predicate AllSafe(w: World, events: seq<Event>)
    decreases |events|
  {
    events == [] || (EventSafe(w, events[0]) && AllSafe(Next(w, events[0]), events[1..]))
  }

  ghost predicate AlwaysMirrored(w: World, events: seq<Event>)
    decreases |events|
  {
    Mirror(w) && (events == [] || AlwaysMirrored(Next(w, events[0]), events[1..]))
  }

  lemma EventMirrorIff(w: World, e: Event)
    requires Mirror(w)
    ensures Mirror(Next(w, e)) <==> EventSafe(w, e)
  {
    match e
    case Received(cmd, env) => if w.up { HandleMirrorIff(w, cmd, env); }
    case Crashed(envs) => RecoveryRestartsTracked(w, envs);
  }

  /** Over any sequence of commands and crashes, memory and disk mirror each other throughout if and
      only if every command is safe when it is handled. */
  lemma {:induction false} RunMirrorIff(w: World, events: seq<Event>)
    requires Mirror(w)
    ensures AlwaysMirrored(w, events) <==> AllSafe(w, events)
    decreases |events|
  {
    if events != [] {
      EventMirrorIff(w, events[0]);
      if EventSafe(w, events[0]) {
        RunMirrorIff(Next(w, events[0]), events[1..]);
      }
    }
  }

  lemma {:induction false} MirroredAtTheEnd(w: World, events: seq<Event>)
    requires AlwaysMirrored(w, events)
    ensures Mirror(Run(w, events))
    decreases |events|
  {
    if events != [] {
      MirroredAtTheEnd(Next(w, events[0]), events[1..]);
    }
  }

  /** From a first boot: after any run of safe commands and any crashes, a crash whose recovery
      completes brings back every tracked pipeline that builds, as it was defined. */
  lemma {:induction false} NothingTrackedIsLost(
    saved: AgentConfig, files: set<Location>, events: seq<Event>, envs: string -> Env, id: string)
    requires UniqueIds(saved.pipelines) && AllSafe(Reload(Boot(saved, files)), events)
    requires id in Run(Reload(Boot(saved, files)), events).running && envs(id).builds
    ensures var before := Run(Reload(Boot(saved, files)), events);
            var after := Next(before, Crashed(envs));
            id in before.configs
            && (after.up ==> id in after.running && after.running[id].started
                             && Definition(after.running[id].built) == Definition(before.configs[id]))
  {
    ReloadOfBoot(saved, files);
    RunMirrorIff(Reload(Boot(saved, files)), events);
    MirroredAtTheEnd(Reload(Boot(saved, files)), events);
    var before := Run(Reload(Boot(saved, files)), events);
    TrackedIsStored(before, id);
    RecoveryRestartsTracked(before, envs);
  }
}
