/**
 The persisted state of the agent: `StateManager` (src/link/app/state.py:20-236), whose
 pipeline list is searched and changed in place, and flushed after every change to the session
 file it is bound to.
 */
module SavedState {
  import opened Common
  import opened SessionNames

  datatype Component = Component(kind: string, args: map<string, string>)

  datatype PipelineConfig = PipelineConfig(id: string, active: bool, source: Component, sink: Option<Component>)

  // Everything of an AgentConfig that is not a pipeline.
  datatype Meta = Meta(version: real, deviceId: string, transport: string, rest: string)

  datatype AgentConfig = AgentConfig(meta: Meta, pipelines: seq<PipelineConfig>)

  /** A pipeline's definition: its config, whatever its active flag says. */
  function Definition(c: PipelineConfig): (d: PipelineConfig) { c.(active := false) }

  // --------------------------------------------------------- the list as a map

  predicate UniqueIds(list: seq<PipelineConfig>) {
    forall i, j :: 0 <= i < j < |list| ==> list[i].id != list[j].id
  }

  function Lookup(list: seq<PipelineConfig>, id: string): (r: Option<PipelineConfig>)
    ensures r.Some? ==> r.value in list && r.value.id == id
  {
    if list == [] then None else if list[0].id == id then Some(list[0]) else Lookup(list[1..], id)
  }

  function IdsOf(list: seq<PipelineConfig>): (r: set<string>) { set p | p in list :: p.id }

  /** Replace the entry with the same id and keep its flag, or append as inactive. */
  function Upsert(list: seq<PipelineConfig>, c: PipelineConfig): (r: seq<PipelineConfig>) {
    if list == [] then [c.(active := false)]
    else if list[0].id == c.id then [c.(active := list[0].active)] + list[1..]
    else [list[0]] + Upsert(list[1..], c)
  }

  function SetActive(list: seq<PipelineConfig>, id: string, active: bool): (r: seq<PipelineConfig>) {
    if list == [] then []
    else if list[0].id == id then [list[0].(active := active)] + list[1..]
    else [list[0]] + SetActive(list[1..], id, active)
  }

  function Without(list: seq<PipelineConfig>, id: string): (r: seq<PipelineConfig>) {
    if list == [] then []
    else if list[0].id == id then Without(list[1..], id)
    else [list[0]] + Without(list[1..], id)
  }

  function IsActive(list: seq<PipelineConfig>, id: string): (r: bool) {
    Lookup(list, id).Some? && Lookup(list, id).value.active
  }

  /** The new config's pipelines, with the flags of those that were already there. */
  function KeepFlags(saved: seq<PipelineConfig>, pipelines: seq<PipelineConfig>): (r: seq<PipelineConfig>)
    ensures |r| == |pipelines|
    ensures forall i :: 0 <= i < |r| ==>
              r[i] == if Lookup(saved, pipelines[i].id).Some?
                      then pipelines[i].(active := Lookup(saved, pipelines[i].id).value.active) else pipelines[i]
  {
    seq(|pipelines|, i requires 0 <= i < |pipelines| =>
      if Lookup(saved, pipelines[i].id).Some?
      then pipelines[i].(active := Lookup(saved, pipelines[i].id).value.active) else pipelines[i])
  }

  // ------------------------------------------------- what the edits mean, by id

  lemma {:induction false} LookupUpsert(list: seq<PipelineConfig>, c: PipelineConfig, id: string)
    ensures Lookup(Upsert(list, c), id) ==
            if id == c.id then Some(c.(active := IsActive(list, c.id))) else Lookup(list, id)
    decreases |list|
  {
    if list != [] && list[0].id != c.id {
      LookupUpsert(list[1..], c, id);
    }
  }

  lemma {:induction false} LookupSetActive(list: seq<PipelineConfig>, key: string, active: bool, id: string)
    ensures Lookup(SetActive(list, key, active), id) ==
            if id == key && Lookup(list, id).Some? then Some(Lookup(list, id).value.(active := active)) else Lookup(list, id)
    decreases |list|
  {
    if list != [] && list[0].id != key {
      LookupSetActive(list[1..], key, active, id);
    }
  }

  lemma {:induction false} LookupWithout(list: seq<PipelineConfig>, key: string, id: string)
    ensures Lookup(Without(list, key), id) == if id == key then None else Lookup(list, id)
    decreases |list|
  {
    if list != [] {
      LookupWithout(list[1..], key, id);
    }
  }

  lemma {:induction false} LookupFinds(list: seq<PipelineConfig>, p: PipelineConfig)
    requires p in list
    ensures Lookup(list, p.id).Some?
    ensures UniqueIds(list) ==> Lookup(list, p.id).value == p
    decreases |list|
  {
    if list[0] != p {
      LookupFinds(list[1..], p);
    }
  }

  lemma {:induction false} LookupIds(list: seq<PipelineConfig>, id: string)
    ensures Lookup(list, id).Some? <==> id in IdsOf(list)
  {
    if id in IdsOf(list) {
      var p :| p in list && p.id == id;
      LookupFinds(list, p);
    }
  }

  lemma {:induction false} EditsKeepIds(list: seq<PipelineConfig>, c: PipelineConfig, id: string, active: bool)
    ensures IdsOf(Upsert(list, c)) == IdsOf(list) + {c.id}
    ensures IdsOf(SetActive(list, id, active)) == IdsOf(list)
    ensures IdsOf(Without(list, id)) == IdsOf(list) - {id}
    decreases |list|
  {
    forall x: string
      ensures x in IdsOf(Upsert(list, c)) <==> x in IdsOf(list) + {c.id}
      ensures x in IdsOf(SetActive(list, id, active)) <==> x in IdsOf(list)
      ensures x in IdsOf(Without(list, id)) <==> x in IdsOf(list) - {id}
    {
      LookupIds(list, x);
      LookupIds(Upsert(list, c), x);
      LookupUpsert(list, c, x);
      LookupIds(SetActive(list, id, active), x);
      LookupSetActive(list, id, active, x);
      LookupIds(Without(list, id), x);
      LookupWithout(list, id, x);
    }
  }

  lemma {:induction false} UniqueCons(p: PipelineConfig, rest: seq<PipelineConfig>)
    requires UniqueIds(rest) && p.id !in IdsOf(rest)
    ensures UniqueIds([p] + rest)
  {
    var all := [p] + rest;
    forall j | 0 < j < |all| ensures all[j].id != p.id {
      assert all[j] == rest[j - 1] && rest[j - 1] in rest;
    }
  }

  lemma {:induction false} UniqueTail(list: seq<PipelineConfig>)
    requires UniqueIds(list) && list != []
    ensures UniqueIds(list[1..]) && list[0].id !in IdsOf(list[1..])
  {
  }

  lemma {:induction false} EditsKeepUnique(list: seq<PipelineConfig>, c: PipelineConfig, id: string, active: bool)
    requires UniqueIds(list)
    ensures UniqueIds(Upsert(list, c)) && UniqueIds(SetActive(list, id, active)) && UniqueIds(Without(list, id))
    decreases |list|
  {
    if list != [] {
      var head, rest := list[0], list[1..];
      UniqueTail(list);
      EditsKeepUnique(rest, c, id, active);
      EditsKeepIds(rest, c, id, active);
      if head.id == c.id { UniqueCons(c.(active := head.active), rest); } else { UniqueCons(head, Upsert(rest, c)); }
      if head.id == id { UniqueCons(head.(active := active), rest); } else { UniqueCons(head, SetActive(rest, id, active)); }
      if head.id != id { UniqueCons(head, Without(rest, id)); }
    }
  }

  // ------------------------------------------------------------------ the class

  const BLANK := AgentConfig(Meta(0.0, "", "", ""), [])

  /** What a start without arguments loads: the last session file in string order, if it loads. */
  function Latest(listing: seq<string>, files: map<string, AgentConfig>): (r: Option<AgentConfig>) {
    if listing != [] && LastSorted(listing) in files then Some(files[LastSorted(listing)]) else None
  }

  class StateManager {
    var cache: Option<AgentConfig>
    var listing: seq<string>            // the session files of configs/, in any order
    var files: map<string, AgentConfig> // the files that exist and load, by path
    var path: Option<string>            // current_session_path

    // Loaded, and the session file is what the cache says.
    ghost predicate Ready()
      reads this
    {
      path.Some? && cache.Some? && path.value in files && files[path.value] == cache.value
    }

    // Loaded or not, a file that is bound holds what the cache says.
    ghost predicate Consistent()
      reads this
    {
      path.Some? ==> Ready()
    }

    // What an edit starts from: the cache, else the latest session, else a blank state.
    ghost function Current(): (r: AgentConfig)
      reads this
    {
      if cache.Some? then cache.value
      else if Latest(listing, files).Some? then Latest(listing, files).value else BLANK
    }

    // The file an edit will write to.
    ghost function Target(): (r: Option<string>)
      reads this
    {
      if cache.None? && Latest(listing, files).Some? then Some(LastSorted(listing)) else path
    }

    // The cache is `config`, on the file it was bound to or has just been bound to.
    twostate predicate Holds(config: AgentConfig)
      reads this
    {
      && cache == Some(config) && path == old(Target()) && listing == old(listing)
      && files == if path.Some? then old(files)[path.value := config] else old(files)
    }

    constructor (listing: seq<string>, files: map<string, AgentConfig>)
      ensures this.listing == listing && this.files == files && cache == None && path == None
    {
      this.listing, this.files, cache, path := listing, files, None, None;
    }

    /** An explicit path is loaded and bound instead of the latest session. */
    method LoadState(explicit: Option<string>) returns (loaded: Option<AgentConfig>)
      modifies this`cache, this`path
      ensures old(cache).Some? ==> loaded == old(cache) && path == old(path)
      ensures old(cache).None? && explicit.None? ==> loaded == Latest(listing, files) && path == old(Target())
      ensures old(cache).None? && explicit.Some? ==>
                loaded == (if explicit.value in files then Some(files[explicit.value]) else None)
                && path == if loaded.Some? then explicit else old(path)
      ensures cache == loaded && (old(Consistent()) ==> Consistent()) && (old(cache).None? && loaded.Some? ==> Ready())
    {
      if cache.None? {
        var at := if explicit.Some? then explicit else if listing != [] then Some(LastSorted(listing)) else None;
        if at.Some? && at.value in files {
          cache, path := Some(files[at.value]), at;
        }
      }
      loaded := cache;
    }

    method EnsureLoaded()
      modifies this`cache, this`path
      ensures cache == Some(old(Current())) && path == old(Target())
    {
      if cache.None? {
        var loaded := LoadState(None);
        if loaded.None? {
          cache := Some(BLANK);
        }
      }
    }

    method Flush()
      modifies this`files
      ensures files == if cache.Some? && path.Some? then old(files)[path.value := cache.value] else old(files)
    {
      if cache.Some? && path.Some? {
        files := files[path.value := cache.value];
      }
    }

    /** Seed a new session under a new name. */
    method Bootstrap(name: string, config: AgentConfig)
      modifies this
      ensures Ready() && cache == Some(config) && path == Some(name)
      ensures files == old(files)[name := config]
      ensures listing == if name in old(listing) then old(listing) else old(listing) + [name]
    {
      path := Some(name);
      cache := Some(config);
      Flush();
      if name !in listing {
        listing := listing + [name];
      }
    }

    method UpdatePipelineConfig(c: PipelineConfig)
      modifies this
      ensures Holds(old(Current()).(pipelines := Upsert(old(Current()).pipelines, c)))
    {
      EnsureLoaded();
      var list := cache.value.pipelines;
      var found := false;
      var i := 0;
      while i < |list|
        invariant 0 <= i <= |list| && !found && list == old(Current()).pipelines
        invariant forall k :: 0 <= k < i ==> list[k].id != c.id
      {
        if list[i].id == c.id {
          UpsertAt(list, c, i);
          list := list[i := c.(active := list[i].active)];
          found := true;
          break;
        }
        i := i + 1;
      }
      if !found {
        UpsertAt(list, c, |list|);
        list := list + [c.(active := false)];
      }
      cache := Some(cache.value.(pipelines := list));
      Flush();
    }

    method SetPipelineStatus(id: string, active: bool)
      modifies this
      ensures Holds(old(Current()).(pipelines := SetActive(old(Current()).pipelines, id, active)))
    {
      EnsureLoaded();
      var list := cache.value.pipelines;
      var i := 0;
      while i < |list|
        invariant 0 <= i <= |list| && list == old(Current()).pipelines
        invariant forall k :: 0 <= k < i ==> list[k].id != id
      {
        if list[i].id == id {
          break;
        }
        i := i + 1;
      }
      SetActiveAt(list, id, active, i);
      if i < |list| {
        cache := Some(cache.value.(pipelines := list[i := list[i].(active := active)]));
      }
      Flush();
    }

    method RemovePipeline(id: string)
      modifies this
      ensures Holds(old(Current()).(pipelines := Without(old(Current()).pipelines, id)))
    {
      EnsureLoaded();
      cache := Some(cache.value.(pipelines := Without(cache.value.pipelines, id)));
      Flush();
    }

    /** Replace the whole config, keeping the runtime flags of pipelines in both. */
    method UpdateFullConfig(config: AgentConfig)
      modifies this
      ensures Holds(AgentConfig(config.meta, KeepFlags(old(Current()).pipelines, config.pipelines)))
    {
      EnsureLoaded();
      cache := Some(AgentConfig(config.meta, KeepFlags(cache.value.pipelines, config.pipelines)));
      Flush();
    }

    method Snapshot() returns (copy: Option<AgentConfig>)
      ensures copy == cache
    {
      return cache;
    }

    /** A snapshot taken before anything was loaded restores nothing. */
    method Restore(copy: Option<AgentConfig>)
      modifies this
      ensures path == old(path) && listing == old(listing)
      ensures copy.None? ==> cache == old(cache) && files == old(files)
      ensures copy.Some? ==> cache == copy && files == if path.Some? then old(files)[path.value := copy.value] else old(files)
    {
      if copy.None? {
        return;
      }
      cache := copy;
      Flush();
    }
  }

  /** After any edit the next start without arguments finds the state if and only if it was written to
      the latest session, or that one happens to hold the same. */
  lemma {:induction false} RestartFindsIff(listing: seq<string>, files: map<string, AgentConfig>, path: string, config: AgentConfig)
    requires listing != []
    ensures Latest(listing, files[path := config]) == Some(config) <==>
            path == LastSorted(listing) || Latest(listing, files) == Some(config)
  {
  }

  lemma {:induction false} UpdateTail<T>(list: seq<T>, i: nat, v: T)
    requires 0 < i < |list|
    ensures list[i := v] == [list[0]] + list[1..][i - 1 := v]
  {
  }

  lemma {:induction false} UpsertAt(list: seq<PipelineConfig>, c: PipelineConfig, i: nat)
    requires i <= |list| && forall k :: 0 <= k < i ==> list[k].id != c.id
    requires i < |list| ==> list[i].id == c.id
    ensures Upsert(list, c) ==
            if i < |list| then list[i := c.(active := list[i].active)] else list + [c.(active := false)]
    decreases |list|
  {
    if list != [] && i > 0 {
      assert forall k :: 0 <= k < i - 1 ==> list[1..][k] == list[k + 1];
      UpsertAt(list[1..], c, i - 1);
      if i < |list| {
        UpdateTail(list, i, c.(active := list[i].active));
      } else {
        assert list + [c.(active := false)] == [list[0]] + (list[1..] + [c.(active := false)]);
      }
    } else if list != [] {
      assert list[0 := c.(active := list[0].active)] == [c.(active := list[0].active)] + list[1..];
    }
  }

  lemma {:induction false} SetActiveAt(list: seq<PipelineConfig>, id: string, active: bool, i: nat)
    requires i <= |list| && forall k :: 0 <= k < i ==> list[k].id != id
    requires i < |list| ==> list[i].id == id
    ensures SetActive(list, id, active) == if i < |list| then list[i := list[i].(active := active)] else list
    decreases |list|
  {
    if list != [] && i > 0 {
      assert forall k :: 0 <= k < i - 1 ==> list[1..][k] == list[k + 1];
      SetActiveAt(list[1..], id, active, i - 1);
      if i < |list| {
        UpdateTail(list, i, list[i].(active := active));
      } else {
        assert list == [list[0]] + list[1..];
      }
    } else if list != [] {
      assert list[0 := list[0].(active := active)] == [list[0].(active := active)] + list[1..];
    }
  }
}
