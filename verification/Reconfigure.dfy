/**
 Hot reconfiguration: `apply_agent_config` (src/link/app/reconfigure.py:40-138) over
 `apply_config` and `_diff_and_swap_pipelines` (src/link/app/runtime.py:428-469). A new agent
 config is validated, applied, and on failure reverted; when the revert fails too, a restart
 is requested.
 */
module Reconfigure {
  import opened Common
  import opened SavedState
  import opened Lifecycle
  import opened Recovery
  import opened Runtime

  const SCHEMA_VERSION := 2.1

  /** What one pass of `apply_config` meets: the order in which the removed ids are visited, the foreign outcomes per id, and whether the handlers rebuild. */
  datatype Attempt = Attempt(order: seq<string>, envs: string -> Env, rebuilt: bool)

  datatype Verdict = Untouched | Applied | Reverted | RestartRequested

  datatype Result = Result(w: World, verdict: Verdict)

  // ------------------------------------------------------------ the operations

  function StopEach(w: World, ids: seq<string>, envs: string -> Env): (r: Outcome)
    decreases |ids|
  {
    if ids == [] then Outcome(w, true)
    else
      var first := Stop(w, ids[0], envs(ids[0]).stops);
      if !first.ok then first else StopEach(first.w, ids[1..], envs)
  }

  /** Bring one pipeline to what its config says: started on it, or stopped. */
  function Place(w: World, p: PipelineConfig, env: Env): (r: Outcome) {
    if p.active then Start(w, p.id, Some(p), env) else Stop(w, p.id, env.stops)
  }

  function PlaceEach(w: World, list: seq<PipelineConfig>, envs: string -> Env): (r: Outcome)
    decreases |list|
  {
    if list == [] then Outcome(w, true)
    else
      var first := Place(w, list[0], envs(list[0].id));
      if !first.ok then first else PlaceEach(first.w, list[1..], envs)
  }

  function Publish(w: World, target: AgentConfig): (r: World) {
    w.(agent := target, configs := Stored(target.pipelines), shared := IdsOf(target.pipelines))
  }

  function Swap(w: World, target: AgentConfig, a: Attempt): (r: Outcome) {
    var stopped := StopEach(w, a.order, a.envs);
    if !stopped.ok then stopped else PlaceEach(stopped.w, target.pipelines, a.envs)
  }

  /** `apply_config`. */
  function ApplyConfig(w: World, target: AgentConfig, a: Attempt): (r: Outcome) {
    var swapped := Swap(w, target, a);
    if !swapped.ok then swapped
    else if !a.rebuilt then Outcome(swapped.w, false)
    else Outcome(Publish(swapped.w, target), true)
  }

  function SaveFull(w: World, target: AgentConfig): (r: World) {
    w.(saved := AgentConfig(target.meta, KeepFlags(w.saved.pipelines, target.pipelines)))
  }

  /** What the request must pass before anything is touched. */
  predicate Acceptable(w: World, version: real, parsed: Option<AgentConfig>) {
    version == SCHEMA_VERSION && parsed.Some?
    && parsed.value.meta.deviceId == w.agent.meta.deviceId && parsed.value.meta.transport == w.agent.meta.transport
  }

  /** `apply_agent_config`. */
  function ApplyAgentConfig(w: World, version: real, parsed: Option<AgentConfig>, forth: Attempt, back: Attempt): (r: Result) {
    if !Acceptable(w, version, parsed) then Result(w, Untouched)
    else
      var applied := ApplyConfig(w, parsed.value, forth);
      if applied.ok then Result(SaveFull(applied.w, parsed.value), Applied)
      else
        var reverted := ApplyConfig(applied.w, w.agent, back);
        if reverted.ok then Result(reverted.w.(saved := w.saved), Reverted)
        else Result(SaveFull(reverted.w, parsed.value).(restart := true), RestartRequested)
  }

  /** The same before any session was loaded: the snapshot is empty, and a revert restores nothing. */
  function ApplyUnloaded(w: World, version: real, parsed: Option<AgentConfig>, forth: Attempt, back: Attempt): (r: Result) {
    var r := ApplyAgentConfig(w, version, parsed, forth, back);
    if !r.verdict.Reverted? then r
    else r.(w := r.w.(saved := ApplyConfig(ApplyConfig(w, parsed.value, forth).w, w.agent, back).w.saved))
  }

  /** The order visits exactly the ids of the first list that are missing from the second. */
  ghost predicate VisitsRemoved(order: seq<string>, old_: seq<PipelineConfig>, target: seq<PipelineConfig>) {
    forall x :: x in order <==> x in IdsOf(old_) - IdsOf(target)
  }

  // --------------------------------------------------------- what a swap does

  ghost predicate SameAt(a: World, b: World, id: string) {
    (id in a.running <==> id in b.running) && (id in a.running ==> a.running[id] == b.running[id])
    && (id in a.configs <==> id in b.configs) && (id in a.configs ==> a.configs[id] == b.configs[id])
  }

  ghost predicate SameRest(a: World, b: World) {
    a.agent == b.agent && a.files == b.files && a.restart == b.restart && a.saved.meta == b.saved.meta
  }

  lemma {:induction false} StopEachAt(w: World, ids: seq<string>, envs: string -> Env, x: string)
    ensures var r := StopEach(w, ids, envs);
            && SameRest(w, r.w) && (x !in ids ==> SameAt(w, r.w, x))
            && (x in r.w.running ==> x in w.running) && (r.ok && x in ids ==> x !in r.w.running)
    decreases |ids|
  {
    if ids != [] {
      var first := Stop(w, ids[0], envs(ids[0]).stops);
      StopFrame(w, ids[0], envs(ids[0]).stops, x);
      assert x in ids <==> x == ids[0] || x in ids[1..];
      if first.ok {
        StopEachAt(first.w, ids[1..], envs, x);
      }
    }
  }

  lemma {:induction false} StopEachKeepsTracked(w: World, ids: seq<string>, envs: string -> Env)
    requires Tracked(w)
    ensures Tracked(StopEach(w, ids, envs).w)
    decreases |ids|
  {
    if ids != [] {
      StopKeepsTracked(w, ids[0], envs(ids[0]).stops);
      StopEachKeepsTracked(Stop(w, ids[0], envs(ids[0]).stops).w, ids[1..], envs);
    }
  }

  lemma {:induction false} StopEachStops(w: World, ids: seq<string>, envs: string -> Env)
    ensures var r := StopEach(w, ids, envs);
            SameRest(w, r.w) && (forall x :: x !in ids ==> SameAt(w, r.w, x))
            && (forall x :: x in r.w.running ==> x in w.running)
            && (r.ok ==> forall x :: x in ids ==> x !in r.w.running)
  {
    var r := StopEach(w, ids, envs);
    forall x
      ensures SameRest(w, r.w) && (x !in ids ==> SameAt(w, r.w, x))
      ensures (x in r.w.running ==> x in w.running) && (r.ok && x in ids ==> x !in r.w.running)
    {
      StopEachAt(w, ids, envs, x);
    }
  }

  lemma StopFrame(w: World, id: string, stops: bool, x: string)
    ensures SameRest(w, Stop(w, id, stops).w) && (x != id ==> SameAt(w, Stop(w, id, stops).w, x))
  {
  }

  lemma LaunchFrame(w: World, id: string, given: Option<PipelineConfig>, conf: PipelineConfig, x: string)
    ensures SameRest(w, Launch(w, id, given, conf)) && (x != id ==> SameAt(w, Launch(w, id, given, conf), x))
    ensures SameRest(w, Register(w, id, given, conf, false))
    ensures x != id ==> SameAt(w, Register(w, id, given, conf, false), x)
  {
  }

  lemma StartFrame(w: World, id: string, given: Option<PipelineConfig>, env: Env, x: string)
    ensures SameRest(w, Start(w, id, given, env).w) && (x != id ==> SameAt(w, Start(w, id, given, env).w, x))
  {
    StopFrame(w, id, env.stops, x);
    if Chosen(w, id, given).Some? {
      LaunchFrame(Stop(w, id, env.stops).w, id, given, Chosen(w, id, given).value, x);
    }
  }

  lemma PlaceFrame(w: World, p: PipelineConfig, env: Env, x: string)
    ensures SameRest(w, Place(w, p, env).w) && (x != p.id ==> SameAt(w, Place(w, p, env).w, x))
  {
    if p.active {
      StartFrame(w, p.id, Some(p), env, x);
    } else {
      StopFrame(w, p.id, env.stops, x);
    }
  }

  lemma PlaceKeepsTracked(w: World, p: PipelineConfig, env: Env)
    requires Tracked(w) && Place(w, p, env).ok
    ensures Tracked(Place(w, p, env).w)
  {
    if p.active {
      StartKeepsTracked(w, p.id, Some(p), env);
    } else {
      StopKeepsTracked(w, p.id, env.stops);
    }
  }

  /** What it takes to place one pipeline: nothing if it is tracked on its target already; else the
      old thread stops, and a new one is built and started if the target is active. */
  predicate CanPlace(w: World, p: PipelineConfig, env: Env) {
    if p.active then Identical(w, p.id, Some(p)) || (CanStop(w, p.id, env.stops) && env.builds && env.starts)
    else CanStop(w, p.id, env.stops)
  }

  lemma PlaceOneAt(w: World, p: PipelineConfig, env: Env)
    ensures Place(w, p, env).ok <==> CanPlace(w, p, env)
    ensures Place(w, p, env).ok ==> (p.id in Place(w, p, env).w.running <==> p.active)
    ensures p.active && Identical(w, p.id, Some(p)) ==> Place(w, p, env) == Outcome(w, true)
    ensures p.active && Place(w, p, env).ok && !Identical(w, p.id, Some(p)) ==> Place(w, p, env).w.running[p.id].started
  {
    if p.active && Place(w, p, env).ok {
      StartTracks(w, p.id, Some(p), env);
    }
  }

  // Whether a pipeline can be placed depends on nothing but that pipeline.
  lemma CanPlaceIsLocal(w: World, other: World, p: PipelineConfig, env: Env)
    requires SameAt(w, other, p.id)
    ensures CanPlace(w, p, env) <==> CanPlace(other, p, env)
    ensures Identical(w, p.id, Some(p)) <==> Identical(other, p.id, Some(p))
  {
  }

  // A pass over the list leaves other ids alone.
  lemma {:induction false} PlaceEachFrame(w: World, list: seq<PipelineConfig>, envs: string -> Env, x: string)
    ensures var r := PlaceEach(w, list, envs);
            SameRest(w, r.w) && (x !in IdsOf(list) ==> SameAt(w, r.w, x))
    decreases |list|
  {
    if list != [] {
      var head := list[0];
      var first := Place(w, head, envs(head.id));
      PlaceFrame(w, head, envs(head.id), x);
      assert head in list && forall q :: q in list[1..] ==> q in list;
      if first.ok {
        PlaceEachFrame(first.w, list[1..], envs, x);
      }
    }
  }

  lemma {:induction false} PlaceEachKeepsTracked(w: World, list: seq<PipelineConfig>, envs: string -> Env)
    requires Tracked(w) && PlaceEach(w, list, envs).ok
    ensures Tracked(PlaceEach(w, list, envs).w)
    decreases |list|
  {
    if list != [] {
      PlaceKeepsTracked(w, list[0], envs(list[0].id));
      PlaceEachKeepsTracked(Place(w, list[0], envs(list[0].id)).w, list[1..], envs);
    }
  }

  // What it does to one entry of the list.
  lemma {:induction false} PlaceEachAt(w: World, list: seq<PipelineConfig>, envs: string -> Env, p: PipelineConfig)
    requires UniqueIds(list) && p in list
    ensures var r := PlaceEach(w, list, envs);
            && (r.ok ==> (p.id in r.w.running <==> p.active))
            && (p.active && Identical(w, p.id, Some(p)) ==> SameAt(w, r.w, p.id))
            && (r.ok && p.active && !Identical(w, p.id, Some(p)) ==> r.w.running[p.id].started)
    decreases |list|
  {
    var head, rest := list[0], list[1..];
    var first := Place(w, head, envs(head.id));
    PlaceFrame(w, head, envs(head.id), p.id);
    UniqueTail(list);
    if p == head {
      PlaceOneAt(w, head, envs(head.id));
      if first.ok {
        PlaceEachFrame(first.w, rest, envs, p.id);
      }
    } else {
      assert p in rest && p.id in IdsOf(rest);
      if first.ok {
        assert SameAt(w, first.w, p.id);
        PlaceEachAt(first.w, rest, envs, p);
      }
    }
  }

  /** A pass succeeds if and only if every pipeline, taken by itself, can be placed. */
  lemma {:induction false} PlaceEachIff(w: World, list: seq<PipelineConfig>, envs: string -> Env)
    requires UniqueIds(list)
    ensures PlaceEach(w, list, envs).ok <==> forall p :: p in list ==> CanPlace(w, p, envs(p.id))
    decreases |list|
  {
    if list != [] {
      var head, rest := list[0], list[1..];
      var first := Place(w, head, envs(head.id));
      UniqueTail(list);
      PlaceOneAt(w, head, envs(head.id));
      assert head in list && forall p :: p in list <==> p == head || p in rest;
      if first.ok {
        PlaceEachIff(first.w, rest, envs);
        forall p | p in rest ensures CanPlace(w, p, envs(p.id)) <==> CanPlace(first.w, p, envs(p.id)) {
          assert p.id in IdsOf(rest);
          PlaceFrame(w, head, envs(head.id), p.id);
          CanPlaceIsLocal(w, first.w, p, envs(p.id));
        }
      }
    }
  }

  lemma {:induction false} StopEachIff(w: World, ids: seq<string>, envs: string -> Env)
    ensures StopEach(w, ids, envs).ok <==> forall x :: x in ids ==> CanStop(w, x, envs(x).stops)
    decreases |ids|
  {
    if ids != [] {
      var first := Stop(w, ids[0], envs(ids[0]).stops);
      assert forall x :: x in ids <==> x == ids[0] || x in ids[1..];
      if first.ok {
        StopEachIff(first.w, ids[1..], envs);
      }
    }
  }

  /** Every removed pipeline can be stopped, and every pipeline of the target placed. */
  ghost predicate CanSwap(w: World, previous: AgentConfig, target: AgentConfig, envs: string -> Env) {
    && (forall x :: x in IdsOf(previous.pipelines) - IdsOf(target.pipelines) ==> CanStop(w, x, envs(x).stops))
    && (forall p :: p in target.pipelines ==> CanPlace(w, p, envs(p.id)))
  }

  lemma SwapIff(w: World, previous: AgentConfig, target: AgentConfig, a: Attempt)
    requires UniqueIds(target.pipelines) && VisitsRemoved(a.order, previous.pipelines, target.pipelines)
    ensures Swap(w, target, a).ok <==> CanSwap(w, previous, target, a.envs)
  {
    var stopped := StopEach(w, a.order, a.envs);
    StopEachIff(w, a.order, a.envs);
    StopEachStops(w, a.order, a.envs);
    if stopped.ok {
      PlaceEachIff(stopped.w, target.pipelines, a.envs);
      forall p | p in target.pipelines ensures CanPlace(w, p, a.envs(p.id)) <==> CanPlace(stopped.w, p, a.envs(p.id)) {
        assert p.id in IdsOf(target.pipelines) && p.id !in a.order;
        CanPlaceIsLocal(w, stopped.w, p, a.envs(p.id));
      }
    }
  }

  /** After a full swap, what is tracked among old and new ids is exactly what the target marks active. */
  lemma SwapMatchesTarget(w: World, previous: AgentConfig, target: AgentConfig, a: Attempt)
    requires UniqueIds(target.pipelines) && VisitsRemoved(a.order, previous.pipelines, target.pipelines)
    ensures var r := Swap(w, target, a);
            SameRest(w, r.w) && (Tracked(w) && r.ok ==> Tracked(r.w))
            && (forall x :: x !in IdsOf(previous.pipelines) + IdsOf(target.pipelines) ==> SameAt(w, r.w, x))
            && (r.ok ==> forall x :: x in IdsOf(previous.pipelines) + IdsOf(target.pipelines) ==>
                                       (x in r.w.running <==> IsActive(target.pipelines, x)))
  {
    var stopped := StopEach(w, a.order, a.envs);
    StopEachStops(w, a.order, a.envs);
    if stopped.ok {
      var r := PlaceEach(stopped.w, target.pipelines, a.envs);
      if r.ok && Tracked(w) {
        StopEachKeepsTracked(w, a.order, a.envs);
        PlaceEachKeepsTracked(stopped.w, target.pipelines, a.envs);
      }
      forall x
        ensures SameRest(w, r.w)
        ensures x !in IdsOf(previous.pipelines) + IdsOf(target.pipelines) ==> SameAt(w, r.w, x)
        ensures r.ok && x in IdsOf(previous.pipelines) + IdsOf(target.pipelines) ==>
                  (x in r.w.running <==> IsActive(target.pipelines, x))
      {
        PlaceEachFrame(stopped.w, target.pipelines, a.envs, x);
        LookupIds(target.pipelines, x);
        if x in IdsOf(target.pipelines) {
          PlaceEachAt(stopped.w, target.pipelines, a.envs, Lookup(target.pipelines, x).value);
        } else if x !in IdsOf(previous.pipelines) {
          assert x !in a.order;
        }
      }
    }
  }

  /** A running pipeline whose stored config is the target's own is never restarted, whether or not the swap succeeds. */
  lemma UnchangedPipelineIsKept(w: World, previous: AgentConfig, target: AgentConfig, a: Attempt, p: PipelineConfig)
    requires UniqueIds(target.pipelines) && VisitsRemoved(a.order, previous.pipelines, target.pipelines)
    requires p in target.pipelines && p.active && Identical(w, p.id, Some(p))
    ensures SameAt(w, Swap(w, target, a).w, p.id)
  {
    StopEachStops(w, a.order, a.envs);
    assert p.id in IdsOf(target.pipelines);
    assert p.id !in a.order;
    PlaceEachAt(StopEach(w, a.order, a.envs).w, target.pipelines, a.envs, p);
  }

  // -------------------------------------------------------- saving a whole config

  lemma {:induction false} LookupKeepFlags(saved: seq<PipelineConfig>, list: seq<PipelineConfig>, id: string)
    ensures Lookup(KeepFlags(saved, list), id) ==
            if Lookup(list, id).None? then None
            else if Lookup(saved, id).None? then Lookup(list, id)
            else Some(Lookup(list, id).value.(active := Lookup(saved, id).value.active))
    decreases |list|
  {
    if list != [] {
      LookupKeepFlags(saved, list[1..], id);
      assert KeepFlags(saved, list)[1..] == KeepFlags(saved, list[1..]);
    }
  }

  /** A config saved whole has its own definitions, and the flags it found. */
  lemma SavedWhole(w: World, target: AgentConfig)
    requires UniqueIds(target.pipelines)
    ensures var list := SaveFull(w, target).saved.pipelines;
            UniqueIds(list) && Agrees(Stored(target.pipelines), list)
            && (forall x :: Lookup(w.saved.pipelines, x).Some? ==>
                              (IsActive(list, x) <==> x in IdsOf(target.pipelines) && IsActive(w.saved.pipelines, x)))
  {
    var list := KeepFlags(w.saved.pipelines, target.pipelines);
    forall x
      ensures x in Stored(target.pipelines) <==> Lookup(list, x).Some?
      ensures x in Stored(target.pipelines) ==> Definition(Stored(target.pipelines)[x]) == Definition(Lookup(list, x).value)
      ensures Lookup(w.saved.pipelines, x).Some? ==>
                (IsActive(list, x) <==> x in IdsOf(target.pipelines) && IsActive(w.saved.pipelines, x))
    {
      LookupKeepFlags(w.saved.pipelines, target.pipelines, x);
      StoredIsLookup(target.pipelines, x);
      LookupIds(target.pipelines, x);
    }
  }

  // ---------------------------------------------------------- the transaction

  ghost predicate Proper(w: World, parsed: Option<AgentConfig>, forth: Attempt, back: Attempt) {
    UniqueIds(w.agent.pipelines)
    && (parsed.Some? ==>
          UniqueIds(parsed.value.pipelines)
          && VisitsRemoved(forth.order, w.agent.pipelines, parsed.value.pipelines)
          && VisitsRemoved(back.order, parsed.value.pipelines, w.agent.pipelines))
  }

  /** Among these ids, exactly the ones the config marks active run. */
  ghost predicate RunsExactly(w: World, ids: set<string>, config: AgentConfig) {
    forall x :: x in ids ==> (x in w.running <==> IsActive(config.pipelines, x))
  }

  ghost predicate OthersUntouched(before: World, after: World, ids: set<string>) {
    forall x :: x !in ids ==> (x in before.running <==> x in after.running)
                              && (x in before.running ==> before.running[x] == after.running[x])
  }

  function AllIds(a: AgentConfig, b: AgentConfig): (r: set<string>) { IdsOf(a.pipelines) + IdsOf(b.pipelines) }

  /** How a request ends is decided before it starts. It is refused, and then nothing changes, if and only if its
      schema version is not 2.1, it does not parse, or it names another device or another transport; it is applied if
      and only if, besides, every pipeline it affects can by itself be stopped or placed and the handlers rebuild. */
  lemma VerdictIff(w: World, version: real, parsed: Option<AgentConfig>, forth: Attempt, back: Attempt)
    requires Proper(w, parsed, forth, back)
    ensures var r := ApplyAgentConfig(w, version, parsed, forth, back);
            var refused := version != 2.1 || parsed.None? || parsed.value.meta.deviceId != w.agent.meta.deviceId
                           || parsed.value.meta.transport != w.agent.meta.transport;
            (r.verdict.Untouched? <==> refused) && (r.verdict.Untouched? ==> r.w == w)
            && (r.verdict.Applied? <==> !refused && CanSwap(w, w.agent, parsed.value, forth.envs) && forth.rebuilt)
  {
    if Acceptable(w, version, parsed) {
      SwapIff(w, w.agent, parsed.value, forth);
    }
  }

  /** Tracked on exactly this config, with a thread that could not be started: a start skips it. */
  predicate DeadOn(w: World, p: PipelineConfig) { Identical(w, p.id, Some(p)) && !w.running[p.id].started }

  lemma SwapRunsIff(w: World, previous: AgentConfig, target: AgentConfig, a: Attempt, p: PipelineConfig)
    requires UniqueIds(target.pipelines) && VisitsRemoved(a.order, previous.pipelines, target.pipelines)
    requires Swap(w, target, a).ok && p in target.pipelines && p.active
    ensures var after := Swap(w, target, a).w;
            p.id in after.running && (after.running[p.id].started <==> !DeadOn(w, p))
  {
    var stopped := StopEach(w, a.order, a.envs).w;
    StopEachStops(w, a.order, a.envs);
    assert p.id in IdsOf(target.pipelines) && p.id !in a.order;
    PlaceEachAt(stopped, target.pipelines, a.envs, p);
    CanPlaceIsLocal(w, stopped, p, a.envs(p.id));
  }

  /** In an applied config a pipeline marked active has a live thread if and only if it was not
      already tracked, on the same config, with a thread that could not be started. */
  lemma AppliedRunsIff(w: World, version: real, parsed: Option<AgentConfig>, forth: Attempt, back: Attempt, p: PipelineConfig)
    requires Proper(w, parsed, forth, back)
    requires ApplyAgentConfig(w, version, parsed, forth, back).verdict.Applied?
    requires p in parsed.value.pipelines && p.active
    ensures var after := ApplyAgentConfig(w, version, parsed, forth, back).w;
            p.id in after.running && (after.running[p.id].started <==> !DeadOn(w, p))
  {
    SwapRunsIff(w, w.agent, parsed.value, forth, p);
  }

  // --------------------------------------- which threads are dead after a failure

  /** The loop over the removed ids gets to this one. */
  ghost predicate StopReaches(w: World, order: seq<string>, envs: string -> Env, x: string) {
    exists i :: 0 <= i < |order| && order[i] == x && forall j :: 0 <= j < i ==> CanStop(w, order[j], envs(order[j]).stops)
  }

  /** The loop over the target's pipelines gets to this one. */
  ghost predicate PlaceReaches(w: World, list: seq<PipelineConfig>, envs: string -> Env, id: string) {
    exists i :: 0 <= i < |list| && list[i].id == id && forall j :: 0 <= j < i ==> CanPlace(w, list[j], envs(list[j].id))
  }

  /** Placing `q` leaves the pipeline dead on `p`. */
  predicate PlacesDead(w: World, p: PipelineConfig, q: PipelineConfig, env: Env) {
    q == p && if Identical(w, p.id, Some(p)) then !w.running[p.id].started else StartRaises(w, p.id, Some(p), env)
  }

  /** An apply leaves the pipeline dead on `p`: it was so before and is not got to, or the target
      defines it as `p` and its thread is dead already or cannot be created. */
  ghost predicate LeavesDead(w: World, target: AgentConfig, a: Attempt, p: PipelineConfig) {
    var q := Lookup(target.pipelines, p.id);
    if q.None? then DeadOn(w, p) && !StopReaches(w, a.order, a.envs, p.id)
    else if (forall x :: x in a.order ==> CanStop(w, x, a.envs(x).stops)) && PlaceReaches(w, target.pipelines, a.envs, p.id)
    then PlacesDead(w, p, q.value, a.envs(p.id))
    else DeadOn(w, p)
  }

  lemma PlaceLeavesDeadIff(w: World, p: PipelineConfig, q: PipelineConfig, env: Env)
    requires p.active && q.id == p.id
    ensures DeadOn(Place(w, q, env).w, p) <==> PlacesDead(w, p, q, env)
  {
  }

  lemma {:induction false} StopReachesCons(w: World, ids: seq<string>, envs: string -> Env, x: string)
    requires ids != [] && ids[0] != x
    ensures var first := Stop(w, ids[0], envs(ids[0]).stops);
            StopReaches(w, ids, envs, x) <==> first.ok && StopReaches(first.w, ids[1..], envs, x)
  {
    var first, rest := Stop(w, ids[0], envs(ids[0]).stops), ids[1..];
    assert forall y :: first.ok && CanStop(w, y, envs(y).stops) ==> CanStop(first.w, y, envs(y).stops);
    assert forall y :: first.ok && CanStop(first.w, y, envs(y).stops) ==> CanStop(w, y, envs(y).stops);
    if StopReaches(w, ids, envs, x) {
      var i :| 0 <= i < |ids| && ids[i] == x && forall j :: 0 <= j < i ==> CanStop(w, ids[j], envs(ids[j]).stops);
      assert CanStop(w, ids[0], envs(ids[0]).stops);
      assert rest[i - 1] == x;
      forall j | 0 <= j < i - 1 ensures CanStop(first.w, rest[j], envs(rest[j]).stops) {
        assert rest[j] == ids[j + 1];
      }
    }
    if first.ok && StopReaches(first.w, rest, envs, x) {
      var i :| 0 <= i < |rest| && rest[i] == x && forall j :: 0 <= j < i ==> CanStop(first.w, rest[j], envs(rest[j]).stops);
      assert ids[i + 1] == x;
      forall j | 0 <= j < i + 1 ensures CanStop(w, ids[j], envs(ids[j]).stops) {
        assert j > 0 ==> ids[j] == rest[j - 1];
      }
    }
  }

  // A loop of stops drops a pipeline or leaves it, and drops a dead one if and only if it gets to it.
  lemma {:induction false} StopEachDrops(w: World, ids: seq<string>, envs: string -> Env, x: string)
    ensures var r := StopEach(w, ids, envs).w;
            r.configs == w.configs && (x in r.running ==> x in w.running && r.running[x] == w.running[x])
    ensures x in w.running && !w.running[x].started ==>
              (x in StopEach(w, ids, envs).w.running <==> !StopReaches(w, ids, envs, x))
    decreases |ids|
  {
    if ids != [] {
      var first := Stop(w, ids[0], envs(ids[0]).stops);
      StopEachDrops(first.w, ids[1..], envs, x);
      if ids[0] == x {
        assert StopReaches(w, ids, envs, x);
      } else {
        StopReachesCons(w, ids, envs, x);
      }
    }
  }

  lemma {:induction false} PlaceReachesLocal(w: World, other: World, list: seq<PipelineConfig>, envs: string -> Env, id: string)
    requires forall q :: q in list ==> SameAt(w, other, q.id)
    ensures PlaceReaches(w, list, envs, id) <==> PlaceReaches(other, list, envs, id)
  {
    forall q | q in list ensures CanPlace(w, q, envs(q.id)) <==> CanPlace(other, q, envs(q.id)) {
      CanPlaceIsLocal(w, other, q, envs(q.id));
    }
  }

  lemma {:induction false} PlaceReachesCons(w: World, list: seq<PipelineConfig>, envs: string -> Env, id: string)
    requires list != [] && list[0].id != id
    ensures PlaceReaches(w, list, envs, id) <==>
            CanPlace(w, list[0], envs(list[0].id)) && PlaceReaches(w, list[1..], envs, id)
  {
    var rest := list[1..];
    if PlaceReaches(w, list, envs, id) {
      var i :| 0 <= i < |list| && list[i].id == id && forall j :: 0 <= j < i ==> CanPlace(w, list[j], envs(list[j].id));
      assert rest[i - 1].id == id;
      forall j | 0 <= j < i - 1 ensures CanPlace(w, rest[j], envs(rest[j].id)) {
        assert rest[j] == list[j + 1];
      }
    }
    if CanPlace(w, list[0], envs(list[0].id)) && PlaceReaches(w, rest, envs, id) {
      var i :| 0 <= i < |rest| && rest[i].id == id && forall j :: 0 <= j < i ==> CanPlace(w, rest[j], envs(rest[j].id));
      assert list[i + 1].id == id;
      forall j | 0 <= j < i + 1 ensures CanPlace(w, list[j], envs(list[j].id)) {
        assert j > 0 ==> list[j] == rest[j - 1];
      }
    }
  }

  lemma {:induction false} PlaceEachLeavesDeadIff(
    w: World, list: seq<PipelineConfig>, envs: string -> Env, p: PipelineConfig, q: PipelineConfig)
    requires UniqueIds(list) && q in list && q.id == p.id && p.active
    ensures DeadOn(PlaceEach(w, list, envs).w, p) <==>
            if PlaceReaches(w, list, envs, p.id) then PlacesDead(w, p, q, envs(p.id)) else DeadOn(w, p)
    decreases |list|
  {
    var head, rest := list[0], list[1..];
    var first := Place(w, head, envs(head.id));
    UniqueTail(list);
    PlaceFrame(w, head, envs(head.id), p.id);
    PlaceOneAt(w, head, envs(head.id));
    if head == q {
      assert PlaceReaches(w, list, envs, p.id);
      PlaceLeavesDeadIff(w, p, q, envs(p.id));
      PlaceEachFrame(first.w, rest, envs, p.id);
    } else {
      assert q in rest && q.id in IdsOf(rest);
      PlaceReachesCons(w, list, envs, p.id);
      PlaceEachLeavesDeadIff(first.w, rest, envs, p, q);
      forall x | x in rest ensures SameAt(w, first.w, x.id) {
        assert x.id in IdsOf(rest);
        PlaceFrame(w, head, envs(head.id), x.id);
      }
      PlaceReachesLocal(w, first.w, rest, envs, p.id);
    }
  }

  lemma SwapLeavesDeadIff(w: World, previous: AgentConfig, target: AgentConfig, a: Attempt, p: PipelineConfig)
    requires UniqueIds(target.pipelines) && VisitsRemoved(a.order, previous.pipelines, target.pipelines)
    requires p in previous.pipelines && p.active
    ensures DeadOn(Swap(w, target, a).w, p) <==> LeavesDead(w, target, a, p)
  {
    var list := target.pipelines;
    var stopped := StopEach(w, a.order, a.envs);
    StopEachDrops(w, a.order, a.envs, p.id);
    StopEachStops(w, a.order, a.envs);
    StopEachIff(w, a.order, a.envs);
    LookupIds(list, p.id);
    PlaceEachFrame(stopped.w, list, a.envs, p.id);
    if p.id in IdsOf(list) {
      forall q | q in list ensures SameAt(w, stopped.w, q.id) {
        assert q.id in IdsOf(list) && q.id !in a.order;
      }
      assert SameAt(w, stopped.w, p.id);
      PlaceReachesLocal(w, stopped.w, list, a.envs, p.id);
      PlaceEachLeavesDeadIff(stopped.w, list, a.envs, p, Lookup(list, p.id).value);
    } else {
      assert p.id in IdsOf(previous.pipelines);
    }
  }

  /** After a revert a pipeline the old config marks active is tracked, and its thread is alive if and
      only if the failed apply did not leave it dead on that very config, which the revert then skips. */
  lemma RevertedRunsIff(w: World, version: real, parsed: Option<AgentConfig>, forth: Attempt, back: Attempt, p: PipelineConfig)
    requires Proper(w, parsed, forth, back)
    requires ApplyAgentConfig(w, version, parsed, forth, back).verdict.Reverted?
    requires p in w.agent.pipelines && p.active
    ensures var after := ApplyAgentConfig(w, version, parsed, forth, back).w;
            p.id in after.running && (after.running[p.id].started <==> !LeavesDead(w, parsed.value, forth, p))
  {
    var half := Swap(w, parsed.value, forth).w;
    SwapLeavesDeadIff(w, w.agent, parsed.value, forth, p);
    SwapRunsIff(half, parsed.value, w.agent, back, p);
  }

  /** Such a run: the agent's one pipeline did not build at recovery; the same config is sent again, its
      thread cannot be created, and the revert reports the old config back with nothing running. */
  lemma RevertSkipsTheDeadPipeline(meta: Meta, p: PipelineConfig)
    requires meta.version == SCHEMA_VERSION && p.active
    ensures var config := AgentConfig(meta, [p]);
            var before := Recover(Boot(config, {}), (id: string) => Env(true, false, true, true, []));
            var forth := Attempt([], (id: string) => Env(true, true, false, true, []), true);
            var back := Attempt([], (id: string) => Env(true, true, true, true, []), true);
            var r := ApplyAgentConfig(before.w, SCHEMA_VERSION, Some(config), forth, back);
            before.ok && Mirror(before.w) && r.verdict == Reverted && p.id in r.w.running && !r.w.running[p.id].started
  {
    var config := AgentConfig(meta, [p]);
    var broken := (id: string) => Env(true, false, true, true, []);
    var forth := Attempt([], (id: string) => Env(true, true, false, true, []), true);
    var back := Attempt([], (id: string) => Env(true, true, true, true, []), true);
    RecoveryBuildsNothing(meta, p, broken);
    DeadOnArrival(Recover(Boot(config, {}), broken).w, p, forth, back);
  }

  lemma RecoveryBuildsNothing(meta: Meta, p: PipelineConfig, broken: string -> Env)
    requires p.active && !broken(p.id).builds
    ensures var config := AgentConfig(meta, [p]);
            var before := Recover(Boot(config, {}), broken);
            before.ok && Mirror(before.w) && before.w.agent == config && p.id !in before.w.running
  {
    var config := AgentConfig(meta, [p]);
    var booted := Reload(Boot(config, {}));
    ReloadOfBoot(config, {});
    assert ToStart([p]) == [p.id] + ToStart([p][1..]);
    assert Start(booted, p.id, None, broken(p.id)) == Outcome(booted, false);
    assert StartEach(booted, [p.id], broken) == StartEach(booted, [p.id][1..], broken);
  }

  lemma DeadOnArrival(w: World, p: PipelineConfig, forth: Attempt, back: Attempt)
    requires w.agent.pipelines == [p] && w.agent.meta.version == SCHEMA_VERSION && p.active && p.id !in w.running
    requires forth.order == [] && forth.envs(p.id).builds && !forth.envs(p.id).starts && back.order == [] && back.rebuilt
    ensures var r := ApplyAgentConfig(w, SCHEMA_VERSION, Some(w.agent), forth, back);
            r.verdict == Reverted && p.id in r.w.running && !r.w.running[p.id].started
  {
    assert p in w.agent.pipelines && Lookup([p], p.id) == Some(p);
    SwapIff(w, w.agent, w.agent, forth);
    assert !CanPlace(w, p, forth.envs(p.id));
    SwapLeavesDeadIff(w, w.agent, w.agent, forth, p);
    assert PlaceReaches(w, w.agent.pipelines, forth.envs, p.id);
    var half := Swap(w, w.agent, forth).w;
    SwapIff(half, w.agent, w.agent, back);
    RevertedRunsIff(w, SCHEMA_VERSION, Some(w.agent), forth, back, p);
  }

  lemma AppliedMeans(w: World, version: real, parsed: Option<AgentConfig>, forth: Attempt, back: Attempt)
    requires Proper(w, parsed, forth, back)
    requires ApplyAgentConfig(w, version, parsed, forth, back).verdict.Applied?
    ensures var r, target := ApplyAgentConfig(w, version, parsed, forth, back), parsed.value;
            r.w.agent == target && r.w.configs == Stored(target.pipelines)
            && r.w.saved.meta == target.meta && Agrees(r.w.configs, r.w.saved.pipelines)
            && RunsExactly(r.w, AllIds(w.agent, target), target) && OthersUntouched(w, r.w, AllIds(w.agent, target))
            && r.w.restart == w.restart && r.w.files == w.files
  {
    SwapMatchesTarget(w, w.agent, parsed.value, forth);
    SavedWhole(Publish(Swap(w, parsed.value, forth).w, parsed.value), parsed.value);
    var swapped := Swap(w, parsed.value, forth).w;
    forall x | x !in AllIds(w.agent, parsed.value)
      ensures (x in w.running <==> x in swapped.running) && (x in w.running ==> w.running[x] == swapped.running[x])
    {
      assert SameAt(w, swapped, x);
    }
  }

  lemma RevertedMeans(w: World, version: real, parsed: Option<AgentConfig>, forth: Attempt, back: Attempt)
    requires Proper(w, parsed, forth, back)
    requires ApplyAgentConfig(w, version, parsed, forth, back).verdict.Reverted?
    ensures var r := ApplyAgentConfig(w, version, parsed, forth, back);
            r.w.agent == w.agent && r.w.saved == w.saved && r.w.configs == Stored(w.agent.pipelines)
            && RunsExactly(r.w, AllIds(w.agent, parsed.value), w.agent)
            && OthersUntouched(w, r.w, AllIds(w.agent, parsed.value))
            && r.w.restart == w.restart && r.w.files == w.files
  {
    var target := parsed.value;
    SwapMatchesTarget(w, w.agent, target, forth);
    var half := Swap(w, target, forth).w;
    SwapMatchesTarget(half, target, w.agent, back);
    var swapped := Swap(half, w.agent, back).w;
    assert AllIds(w.agent, target) == AllIds(target, w.agent);
    forall x | x !in AllIds(w.agent, target)
      ensures (x in w.running <==> x in swapped.running) && (x in w.running ==> w.running[x] == swapped.running[x])
    {
      assert SameAt(w, half, x) && SameAt(half, swapped, x);
    }
  }

  // Short of threads that cannot be created, a swap that fails halfway keeps the marks too.
  lemma {:induction false} PlaceEachMarks(w: World, list: seq<PipelineConfig>, envs: string -> Env)
    requires Tracked(w) && forall id :: envs(id).starts
    ensures Tracked(PlaceEach(w, list, envs).w)
    decreases |list|
  {
    if list != [] {
      var p, env := list[0], envs(list[0].id);
      StartKeepsTracked(w, p.id, Some(p), env);
      StopKeepsTracked(w, p.id, env.stops);
      PlaceEachMarks(Place(w, p, env).w, list[1..], envs);
    }
  }

  lemma SwapMarks(w: World, target: AgentConfig, a: Attempt)
    requires Tracked(w) && forall id :: a.envs(id).starts
    ensures Tracked(ApplyConfig(w, target, a).w)
  {
    StopEachKeepsTracked(w, a.order, a.envs);
    PlaceEachMarks(StopEach(w, a.order, a.envs).w, target.pipelines, a.envs);
  }

  /** Before any session was loaded there is no snapshot to restore. A request ends in the same way and with the
      same memory; but a revert keeps what its starts and stops have saved, so that whatever runs is marked on disk. */
  lemma UnloadedRevertMarks(w: World, version: real, parsed: Option<AgentConfig>, forth: Attempt, back: Attempt)
    requires Tracked(w) && forall id :: forth.envs(id).starts && back.envs(id).starts
    ensures var r, loaded := ApplyUnloaded(w, version, parsed, forth, back), ApplyAgentConfig(w, version, parsed, forth, back);
            && r.verdict == loaded.verdict && r.w.(saved := loaded.w.saved) == loaded.w
            && if r.verdict.Reverted? then Tracked(r.w) else r == loaded
  {
    if parsed.Some? {
      SwapMarks(w, parsed.value, forth);
      SwapMarks(ApplyConfig(w, parsed.value, forth).w, w.agent, back);
    }
  }

  /** When even the revert fails, the process is told to restart, and it comes up on the new config's definitions. */
  lemma RestartComesUpOnTarget(w: World, version: real, parsed: Option<AgentConfig>, forth: Attempt, back: Attempt)
    requires Proper(w, parsed, forth, back)
    requires ApplyAgentConfig(w, version, parsed, forth, back).verdict.RestartRequested?
    ensures var r, target := ApplyAgentConfig(w, version, parsed, forth, back), parsed.value;
            r.w.restart && r.w.files == w.files
            && var booted := Reload(Boot(r.w.saved, r.w.files));
               Mirror(booted) && booted.agent.meta == target.meta && booted.configs.Keys == Stored(target.pipelines).Keys
               && forall x :: x in booted.configs ==>
                                Definition(booted.configs[x]) == Definition(Stored(target.pipelines)[x])
  {
    var target := parsed.value;
    SwapMatchesTarget(w, w.agent, target, forth);
    var half := Swap(w, target, forth).w;
    SwapMatchesTarget(half, target, w.agent, back);
    var left := Swap(half, w.agent, back).w;
    SavedWhole(left, target);
    var r := ApplyAgentConfig(w, version, parsed, forth, back);
    ReloadOfBoot(r.w.saved, r.w.files);
    var booted := Reload(Boot(r.w.saved, r.w.files));
    forall x
      ensures x in booted.configs <==> x in Stored(target.pipelines)
      ensures x in booted.configs ==> Definition(booted.configs[x]) == Definition(Stored(target.pipelines)[x])
    {
      assert Agrees(booted.configs, r.w.saved.pipelines);
    }
  }

  // ------------------------------------------------ memory and disk afterwards

  /**
   An applied config leaves memory and disk mirrored if and only if nothing was running under
   an id that neither config knows: such a pipeline is not stopped, yet its config is dropped.
   */
  lemma AppliedMirrorIff(w: World, version: real, parsed: Option<AgentConfig>, forth: Attempt, back: Attempt)
    requires Tracked(w) && Proper(w, parsed, forth, back)
    requires ApplyAgentConfig(w, version, parsed, forth, back).verdict.Applied?
    ensures Mirror(ApplyAgentConfig(w, version, parsed, forth, back).w) <==> w.running.Keys <= AllIds(w.agent, parsed.value)
  {
    var target := parsed.value;
    var after := ApplyAgentConfig(w, version, parsed, forth, back).w;
    var swapped := Swap(w, target, forth).w;
    AppliedMeans(w, version, parsed, forth, back);
    SwapMatchesTarget(w, w.agent, target, forth);
    PublishedMirrorIff(swapped, target);
    forall x ensures x in after.running && x !in IdsOf(target.pipelines) <==> x in w.running && x !in AllIds(w.agent, target) {
      LookupIds(target.pipelines, x);
    }
  }

  /** Whatever other threads have stored and saved by the time a config is published and saved, memory
      and disk mirror each other afterwards if and only if nothing but its pipelines is tracked. */
  lemma PublishedMirrorIff(w: World, target: AgentConfig)
    requires Tracked(w) && UniqueIds(target.pipelines)
    ensures Mirror(SaveFull(Publish(w, target), target)) <==> w.running.Keys <= IdsOf(target.pipelines)
  {
    var after := SaveFull(Publish(w, target), target);
    SavedWhole(Publish(w, target), target);
    StoredAgrees(target.pipelines);
    PublishedShares(w, target);
    assert SharesAgree(after) by {
      assert SharesAgree(Publish(w, target));
    }
    forall x | x in w.running ensures IsActive(after.saved.pipelines, x) <==> x in IdsOf(target.pipelines) {
      assert IsActive(w.saved.pipelines, x);
    }
  }

  /** Such a run: a pipeline started by command outlives a reconfiguration that forgets its config. */
  lemma StartedPipelineIsOrphaned(meta: Meta, c: PipelineConfig)
    requires c.id == "a" && meta.version == SCHEMA_VERSION
    ensures var empty := AgentConfig(meta, []);
            var env := Env(true, true, true, true, []);
            var started := Start(Reload(Boot(empty, {})), "a", Some(c), env).w;
            var pass := Attempt([], (id: string) => env, true);
            var r := ApplyAgentConfig(started, SCHEMA_VERSION, Some(empty), pass, pass);
            Mirror(started) && r.verdict == Applied && "a" in r.w.running && "a" !in r.w.configs && !Mirror(r.w)
  {
    var empty := AgentConfig(meta, []);
    var env := Env(true, true, true, true, []);
    var booted := Reload(Boot(empty, {}));
    ReloadOfBoot(empty, {});
    StartKeepsMirror(booted, "a", Some(c), env);
    var started := Start(booted, "a", Some(c), env).w;
    var pass := Attempt([], (id: string) => env, true);
    assert started.agent == empty && "a" in started.running;
    assert Proper(started, Some(empty), pass, pass);
    assert Swap(started, empty, pass).ok;
    AppliedMeans(started, SCHEMA_VERSION, Some(empty), pass, pass);
    AppliedMirrorIff(started, SCHEMA_VERSION, Some(empty), pass, pass);
  }

  lemma PublishedShares(w: World, target: AgentConfig)
    requires UniqueIds(target.pipelines)
    ensures SharesAgree(Publish(w, target))
  {
    forall x | x in IdsOf(target.pipelines)
      ensures x in Stored(target.pipelines) && Lookup(target.pipelines, x) == Some(Stored(target.pipelines)[x])
    {
      StoredIsLookup(target.pipelines, x);
      LookupIds(target.pipelines, x);
    }
  }

  /**
   A reverted config leaves them mirrored if and only if the old agent config was already what
   is on disk, and every pipeline it marks active was marked active there.
   */
  lemma RevertedMirrorIff(w: World, version: real, parsed: Option<AgentConfig>, forth: Attempt, back: Attempt)
    requires Tracked(w) && Proper(w, parsed, forth, back)
    requires ApplyAgentConfig(w, version, parsed, forth, back).verdict.Reverted?
    ensures Mirror(ApplyAgentConfig(w, version, parsed, forth, back).w) <==>
            Agrees(Stored(w.agent.pipelines), w.saved.pipelines)
            && forall x :: IsActive(w.agent.pipelines, x) ==> IsActive(w.saved.pipelines, x)
  {
    var after := ApplyAgentConfig(w, version, parsed, forth, back).w;
    RevertedMeans(w, version, parsed, forth, back);
    StoredAgrees(w.agent.pipelines);
    PublishedShares(after, w.agent);
    assert after.shared == IdsOf(w.agent.pipelines);
    forall x
      ensures IsActive(w.agent.pipelines, x) ==> x in after.running
      ensures x in after.running ==> IsActive(w.agent.pipelines, x) || IsActive(w.saved.pipelines, x)
    {
      LookupIds(w.agent.pipelines, x);
      if x !in AllIds(w.agent, parsed.value) {
        assert x in after.running <==> x in w.running;
      }
    }
  }

  /** Such a run: a model is deployed, a reconfiguration fails to build its one pipeline and is reverted, and
      memory has forgotten the model while the disk still lists it. */
  lemma RevertForgetsTheDeployedModel(meta: Meta, c: PipelineConfig, p: PipelineConfig)
    requires meta.version == SCHEMA_VERSION && p.active && p.id != c.id
    ensures var empty := AgentConfig(meta, []);
            var deployed := Deploy(Reload(Boot(empty, {})), c.id, c).w;
            var forth := Attempt([], (id: string) => Env(true, false, true, true, []), true);
            var back := Attempt([p.id], (id: string) => Env(true, true, true, true, []), true);
            var r := ApplyAgentConfig(deployed, SCHEMA_VERSION, Some(AgentConfig(meta, [p])), forth, back);
            Mirror(deployed) && r.verdict == Reverted
            && c.id !in r.w.configs && Lookup(r.w.saved.pipelines, c.id).Some? && !Mirror(r.w)
  {
    var empty := AgentConfig(meta, []);
    var target := AgentConfig(meta, [p]);
    ReloadOfBoot(empty, {});
    StoreKeepsMirror(Reload(Boot(empty, {})), c.id, c);
    var deployed := Deploy(Reload(Boot(empty, {})), c.id, c).w;
    LookupUpsert([], c, c.id);
    var forth := Attempt([], (id: string) => Env(true, false, true, true, []), true);
    var back := Attempt([p.id], (id: string) => Env(true, true, true, true, []), true);
    FailedSwapReverts(deployed, target, p, forth, back);
    RevertedMeans(deployed, SCHEMA_VERSION, Some(target), forth, back);
  }

  lemma FailedSwapReverts(w: World, target: AgentConfig, p: PipelineConfig, forth: Attempt, back: Attempt)
    requires Tracked(w) && w.agent == AgentConfig(target.meta, []) && w.running == map[] && target.meta.version == SCHEMA_VERSION
    requires target.pipelines == [p] && p.active && forth.order == [] && back.order == [p.id] && back.rebuilt
    requires !forth.envs(p.id).builds
    ensures Proper(w, Some(target), forth, back)
    ensures ApplyAgentConfig(w, SCHEMA_VERSION, Some(target), forth, back).verdict == Reverted
  {
    assert IdsOf([p]) == {p.id} && p in target.pipelines;
    assert IdsOf(w.agent.pipelines) == {};
    SwapIff(w, w.agent, target, forth);
    assert !CanPlace(w, p, forth.envs(p.id));
    var half := Swap(w, target, forth).w;
    SwapMatchesTarget(w, w.agent, target, forth);
    NothingTrackedHalfway(w, target, p, forth);
    SwapIff(half, target, w.agent, back);
  }

  lemma NothingTrackedHalfway(w: World, target: AgentConfig, p: PipelineConfig, forth: Attempt)
    requires w.running == map[] && target.pipelines == [p] && p.active && forth.order == [] && !forth.envs(p.id).builds
    ensures Swap(w, target, forth).w == w
  {
    assert StopEach(w, [], forth.envs) == Outcome(w, true);
    assert Place(w, p, forth.envs(p.id)) == Outcome(w, false);
  }

  /** A running pipeline that both configs define as it is stored keeps its thread through any outcome. */
  lemma UnchangedPipelineSurvives(
    w: World, version: real, parsed: Option<AgentConfig>, forth: Attempt, back: Attempt, p: PipelineConfig)
    requires Proper(w, parsed, forth, back)
    requires p.active && Identical(w, p.id, Some(p))
    requires parsed.Some? ==> p in parsed.value.pipelines
    requires p in w.agent.pipelines || ApplyAgentConfig(w, version, parsed, forth, back).verdict.Applied?
    ensures var after := ApplyAgentConfig(w, version, parsed, forth, back).w;
            p.id in after.running && after.running[p.id] == w.running[p.id]
  {
    if parsed.Some? {
      var target := parsed.value;
      UnchangedPipelineIsKept(w, w.agent, target, forth, p);
      SwapMatchesTarget(w, w.agent, target, forth);
      var half := Swap(w, target, forth).w;
      if p in w.agent.pipelines {
        UnchangedPipelineIsKept(half, target, w.agent, back, p);
      }
    }
  }

  // ------------------------------------------- another command in the gap

  /*
   `apply_config` gives the ops lock back before the caller persists the new config, or restores
   the old one (src/link/app/reconfigure.py:94-96, 118-120). Another thread may handle a command in
   that gap. The config object that is then persisted is the one inside the runtime, so a rewrite
   of its arguments by START_SERVING is persisted with it; everything else is not.
   */

  /** Just after `apply_config`: the stored configs are the agent config's own objects. */
  ghost predicate Published(w: World) {
    UniqueIds(w.agent.pipelines) && w.configs == Stored(w.agent.pipelines) && w.shared == IdsOf(w.agent.pipelines)
  }

  predicate SameDefinition(configs: map<string, PipelineConfig>, id: string, c: PipelineConfig) {
    id in configs && Definition(configs[id]) == Definition(c)
  }

  /** The command stores no definition but one that is there, and drops none. */
  predicate KeepsDefinitions(w: World, cmd: Command, env: Env) {
    match cmd
    case StartModel(id, c) => Launches(w, id, Some(c), env) ==> SameDefinition(w.configs, id, c)
    case UpdatePipeline(id, c) =>
      c.id == id && (id in w.running ==> Launches(w, id, Some(c), env)) ==> SameDefinition(w.configs, id, c)
    case DeployCommit(id, c) => c.id == id ==> SameDefinition(w.configs, id, c)
    case UninstallModel(id, force, filename, extension) =>
      UninstallAllowed(w, id, force, filename, extension, env) ==> id !in w.configs
    case _ => true
  }

  lemma {:induction false} AgreesIgnoresFlags(configs: map<string, PipelineConfig>, saved: seq<PipelineConfig>, list: seq<PipelineConfig>)
    ensures Agrees(configs, KeepFlags(saved, list)) <==> Agrees(configs, list)
  {
    forall x
      ensures Lookup(KeepFlags(saved, list), x).Some? <==> Lookup(list, x).Some?
      ensures Lookup(list, x).Some? ==> Definition(Lookup(KeepFlags(saved, list), x).value) == Definition(Lookup(list, x).value)
    {
      LookupKeepFlags(saved, list, x);
    }
  }

  lemma {:induction false} StoringAgreesIff(configs: map<string, PipelineConfig>, list: seq<PipelineConfig>, id: string, c: PipelineConfig)
    requires Agrees(configs, list)
    ensures Agrees(configs[id := c], list) <==> SameDefinition(configs, id, c)
  {
    if SameDefinition(configs, id, c) {
      forall x ensures x in configs[id := c] <==> Lookup(list, x).Some?
        ensures x in configs ==> Definition(configs[id := c][x]) == Definition(Lookup(list, x).value) {
      }
    }
  }

  lemma {:induction false} DroppingAgreesIff(configs: map<string, PipelineConfig>, list: seq<PipelineConfig>, id: string)
    requires Agrees(configs, list)
    ensures Agrees(configs - {id}, list) <==> id !in configs
  {
    if id !in configs {
      assert configs - {id} == configs;
    }
  }

  lemma StartStores(w: World, id: string, given: Option<PipelineConfig>, env: Env)
    ensures Start(w, id, given, env).w.agent == w.agent
    ensures Start(w, id, given, env).w.configs ==
            if given.Some? && Launches(w, id, given, env) then w.configs[id := given.value] else w.configs
  {
  }

  lemma UninstallStores(w: World, cmd: Command, env: Env)
    requires cmd.UninstallModel?
    ensures Handle(w, cmd, env).w.agent == w.agent
    ensures Handle(w, cmd, env).w.configs == if Handle(w, cmd, env).ok then w.configs - {cmd.id} else w.configs
  {
  }

  // What every command but START_SERVING does to definitions that agree with a list.
  lemma {:induction false} CommandAgreesIff(w: World, cmd: Command, env: Env, list: seq<PipelineConfig>)
    requires Agrees(w.configs, list) && !cmd.StartServing?
    ensures Handle(w, cmd, env).w.agent == w.agent
    ensures Agrees(Handle(w, cmd, env).w.configs, list) <==> KeepsDefinitions(w, cmd, env)
  {
    match cmd
    case StartModel(id, c) =>
      StartStores(w, id, Some(c), env);
      StoringAgreesIff(w.configs, list, id, c);
    case StartInference(id) => StartStores(w, id, None, env);
    case StopModel(id) => assert Stop(w, id, env.stops).w.configs == w.configs;
    case DeployCommit(id, c) => StoringAgreesIff(w.configs, list, id, c);
    case UpdatePipeline(id, c) =>
      StartStores(w, id, Some(c), env);
      StoringAgreesIff(w.configs, list, id, c);
    case UninstallModel(id, _, _, _) =>
      UninstallStores(w, cmd, env);
      UninstallIff(w, cmd, env);
      DroppingAgreesIff(w.configs, list, id);
  }

  lemma ServeStores(w: World, cmd: Command, env: Env)
    requires cmd.StartServing? && cmd.id in w.configs
    ensures var c := Serving(w.configs[cmd.id], cmd.port, cmd.host, cmd.alias);
            var after := Handle(w, cmd, env).w;
            after.configs == w.configs[cmd.id := c] && after.agent == Rewrite(w, cmd.id, c).agent
  {
    StartStores(Rewrite(w, cmd.id, Serving(w.configs[cmd.id], cmd.port, cmd.host, cmd.alias)), cmd.id, None, env);
  }

  /** A command handled between the apply and the save of the new config leaves memory and disk with
      the same definitions if and only if it changes none, START_SERVING excepted, which is always
      persisted. */
  lemma ApplyGapIff(w: World, cmd: Command, env: Env)
    requires Published(w)
    ensures var q := Handle(w, cmd, env).w;
            Agrees(q.configs, SaveFull(q, q.agent).saved.pipelines) <==> KeepsDefinitions(w, cmd, env)
  {
    var q := Handle(w, cmd, env).w;
    StoredAgrees(w.agent.pipelines);
    AgreesIgnoresFlags(q.configs, q.saved.pipelines, q.agent.pipelines);
    if !cmd.StartServing? {
      CommandAgreesIff(w, cmd, env, w.agent.pipelines);
    } else if cmd.id in w.configs {
      ServeStores(w, cmd, env);
      StoredIsLookup(w.agent.pipelines, cmd.id);
      LookupIds(w.agent.pipelines, cmd.id);
      AgreesAfterUpsert(w.configs, w.agent.pipelines, Serving(w.configs[cmd.id], cmd.port, cmd.host, cmd.alias));
    }
  }

  /** Such a command: a model deployed in the gap is in memory and not on disk. */
  lemma DeployInTheGapIsNotSaved(meta: Meta, c: PipelineConfig)
    ensures var empty := AgentConfig(meta, []);
            var pass := Attempt([], (id: string) => Env(true, true, true, true, []), true);
            var before := Reload(Boot(empty, {}));
            var applied := ApplyConfig(before, empty, pass);
            var deployed := Handle(applied.w, DeployCommit(c.id, c), Env(true, true, true, true, []));
            var after := SaveFull(deployed.w, empty);
            Mirror(before) && applied.ok && deployed.ok
            && c.id in after.configs && Lookup(after.saved.pipelines, c.id).None? && !Mirror(after)
  {
    var empty := AgentConfig(meta, []);
    var pass := Attempt([], (id: string) => Env(true, true, true, true, []), true);
    ReloadOfBoot(empty, {});
    assert Swap(Reload(Boot(empty, {})), empty, pass).ok;
  }

  /** Between the revert and the restore of the saved state, START_SERVING is lost too, unless the
      pipeline was served that way before. */
  lemma RevertGapIff(w: World, snapshot: AgentConfig, cmd: Command, env: Env)
    requires Published(w) && Agrees(w.configs, snapshot.pipelines)
    ensures var q := Handle(w, cmd, env).w.(saved := snapshot);
            Agrees(q.configs, q.saved.pipelines) <==>
            KeepsDefinitions(w, cmd, env)
            && (cmd.StartServing? && cmd.id in w.configs ==>
                  SameDefinition(w.configs, cmd.id, Serving(w.configs[cmd.id], cmd.port, cmd.host, cmd.alias)))
  {
    if !cmd.StartServing? {
      CommandAgreesIff(w, cmd, env, snapshot.pipelines);
    } else if cmd.id in w.configs {
      ServeStores(w, cmd, env);
      StoringAgreesIff(w.configs, snapshot.pipelines, cmd.id, Serving(w.configs[cmd.id], cmd.port, cmd.host, cmd.alias));
    }
  }

  lemma InactiveSwapIsNoOp(w: World, target: AgentConfig, p: PipelineConfig, a: Attempt)
    requires target.pipelines == [p] && !p.active && p.id !in w.running && a.order == []
    ensures Swap(w, target, a) == Outcome(w, true)
  {
    assert StopEach(w, [], a.envs) == Outcome(w, true);
    assert Place(w, p, a.envs(p.id)) == Outcome(w, true);
    assert PlaceEach(w, [p], a.envs) == PlaceEach(w, [p][1..], a.envs);
  }

  /** Such a command: the config's one pipeline is stopped, the handlers do not rebuild, and a
      START_SERVING before the restore changes its arguments in memory and not on disk. */
  lemma ServingInTheRevertGapIsNotSaved(meta: Meta, p: PipelineConfig, port: string, host: string, alias: string)
    requires !p.active && !("mode" in p.source.args && p.source.args["mode"] == "serve")
    ensures var config := AgentConfig(meta, [p]);
            var env := Env(true, true, true, true, []);
            var before := Reload(Boot(config, {}));
            var applied := ApplyConfig(before, config, Attempt([], (id: string) => env, false));
            var reverted := ApplyConfig(applied.w, config, Attempt([], (id: string) => env, true));
            var served := Handle(reverted.w, StartServing(p.id, port, host, alias), env);
            var after := served.w.(saved := before.saved);
            Mirror(before) && !applied.ok && reverted.ok && served.ok
            && p.id in after.running && p.id in after.configs && after.configs[p.id] == Serving(p, port, host, alias)
            && Lookup(after.saved.pipelines, p.id) == Some(p) && !Mirror(after)
  {
    var config := AgentConfig(meta, [p]);
    var env := Env(true, true, true, true, []);
    var before := Reload(Boot(config, {}));
    var forth := Attempt([], (id: string) => env, false);
    ReloadOfBoot(config, {});
    assert IdsOf([p]) == {p.id} && Stored([p]) == map[p.id := p];
    InactiveSwapIsNoOp(before, config, p, forth);
    InactiveSwapIsNoOp(before, config, p, Attempt([], (id: string) => env, true));
    var reverted := Publish(before, config);
    assert ApplyConfig(before, config, Attempt([], (id: string) => env, true)) == Outcome(reverted, true);
    ServeStores(reverted, StartServing(p.id, port, host, alias), env);
    var after := Handle(reverted, StartServing(p.id, port, host, alias), env).w.(saved := before.saved);
    assert Serving(p, port, host, alias).source.args["mode"] == "serve";
    assert Definition(after.configs[p.id]) != Definition(p);
    assert Lookup(after.saved.pipelines, p.id) == Some(p);
  }

  // ------------------------------------------------------------- in place

  method StopRemoved(runtime: AgentRuntime, order: seq<string>, envs: string -> Env) returns (ok: bool)
    requires runtime.Valid()
    modifies runtime, runtime.state
    ensures runtime.Valid() && Outcome(runtime.View(), ok) == StopEach(old(runtime.View()), order, envs)
  {
    var i := 0;
    ok := true;
    while i < |order|
      invariant 0 <= i <= |order| && runtime.Valid()
      invariant StopEach(runtime.View(), order[i..], envs) == StopEach(old(runtime.View()), order, envs)
    {
      ok := runtime.StopPipeline(order[i], envs(order[i]).stops);
      if !ok {
        return;
      }
      assert order[i..][1..] == order[i + 1..];
      i := i + 1;
    }
    ok := true;
  }

  method PlaceAll(runtime: AgentRuntime, list: seq<PipelineConfig>, envs: string -> Env) returns (ok: bool)
    requires runtime.Valid()
    modifies runtime, runtime.state
    ensures runtime.Valid() && Outcome(runtime.View(), ok) == PlaceEach(old(runtime.View()), list, envs)
  {
    var i := 0;
    ok := true;
    while i < |list|
      invariant 0 <= i <= |list| && runtime.Valid()
      invariant PlaceEach(runtime.View(), list[i..], envs) == PlaceEach(old(runtime.View()), list, envs)
    {
      var p := list[i];
      if p.active {
        var raised;
        ok, raised := runtime.StartPipeline(p.id, Some(p), envs(p.id));
      } else {
        ok := true;
        if p.id in runtime.running {
          ok := runtime.StopPipeline(p.id, envs(p.id).stops);
        }
      }
      assert list[i..][1..] == list[i + 1..];
      if !ok {
        return;
      }
      i := i + 1;
    }
    ok := true;
  }

  method SwapConfig(runtime: AgentRuntime, target: AgentConfig, a: Attempt) returns (ok: bool)
    requires runtime.Valid()
    modifies runtime, runtime.state
    ensures runtime.Valid() && Outcome(runtime.View(), ok) == ApplyConfig(old(runtime.View()), target, a)
  {
    ok := StopRemoved(runtime, a.order, a.envs);
    if !ok {
      return;
    }
    ok := PlaceAll(runtime, target.pipelines, a.envs);
    if !ok {
      return;
    }
    ok := a.rebuilt;
    if ok {
      runtime.agent := target;
      runtime.configs := Stored(target.pipelines);
      runtime.shared := IdsOf(target.pipelines);
    }
  }

  /** The whole transaction, with the snapshot of the state manager taken before and restored after a failure. */
  method Reconfigure(runtime: AgentRuntime, version: real, parsed: Option<AgentConfig>, forth: Attempt, back: Attempt)
    returns (verdict: Verdict)
    requires runtime.Valid()
    modifies runtime, runtime.state
    ensures runtime.Valid()
    ensures Result(runtime.View(), verdict) ==
            if old(runtime.state.cache).Some? then ApplyAgentConfig(old(runtime.View()), version, parsed, forth, back)
            else ApplyUnloaded(old(runtime.View()), version, parsed, forth, back)
  {
    if version != SCHEMA_VERSION || parsed.None? {
      return Untouched;
    }
    var target := parsed.value;
    if target.meta.deviceId != runtime.agent.meta.deviceId || target.meta.transport != runtime.agent.meta.transport {
      return Untouched;
    }
    var oldConfig := runtime.agent;
    var oldState := runtime.state.Snapshot();
    var ok := SwapConfig(runtime, target, forth);
    if ok {
      runtime.state.UpdateFullConfig(target);
      return Applied;
    }
    ok := SwapConfig(runtime, oldConfig, back);
    if ok {
      runtime.state.Restore(oldState);
      return Reverted;
    }
    runtime.state.UpdateFullConfig(target);
    runtime.restart := true;
    return RestartRequested;
  }
}
