/**
 `ensure_engine` (src/link/infra/artifact_store.py:341-472): many processes install an
 engine into one directory, under a cross-process lock, each of them able to crash
 after any step.  Renames are atomic; tree removal, extraction and the marker write
 are not.  The lock is exclusive and dies with its holder, and the removal of an old
 staging directory completes.
 */
module EngineStore {
  import opened Common

  type Hash = string
  type Pid = nat

  // A directory's contents: exactly the extraction of an archive, or anything less.
  datatype Content = Incomplete | Extracted(archive: Bytes)
  datatype Marker = NoMarker | TornMarker | Marker(hash: Hash)
  datatype Dir = Dir(content: Content, marker: Marker)

  datatype Variant = Variant(file: string, hash: Hash, size: Option<nat>)

  datatype Outcome = Done | Error

  datatype Pc =
    | FirstCheck                // _installed(), before the lock
    | Waiting
    | Recheck                   // lock held: _installed() again
    | LookInCache
    | Downloading
    | Verifying
    | ClearStaging
    | Extracting
    | Marking
    | ClearOld                  // _atomic_swap: rmtree(old)
    | Retiring                  // os.replace(dest, old)
    | Promoting                 // os.replace(staging, dest)
    | DropOld
    | Unlinking                 // archive.unlink
    | Leaving(outcome: Outcome) // release the lock
    | Finished(outcome: Outcome)

  datatype Process = Process(variant: Variant, pc: Pc)

  datatype State = State(
    dest: Option<Dir>,
    retired: Option<Dir>,       // .<name>.old
    staging: Option<Dir>,
    cache: map<string, Bytes>,
    lock: Option<Pid>,
    procs: map<Pid, Process>,
    fetched: multiset<Hash>)    // history: the hash of every archive fetched

  // What the environment decides: the step completes, raises, or has only torn the
  // file or directory it works on; or these bytes came over the network.
  datatype Choice = Go | Raise | Tear | Received(data: Bytes)

  datatype Step = Call(p: Pid, v: Variant) | Work(p: Pid, c: Choice) | Crash(p: Pid)

  predicate InSection(pc: Pc) { !pc.FirstCheck? && !pc.Waiting? && !pc.Finished? }

  /** `_installed`: the marker of the directory in place names the hash. */
  predicate Installed(s: State, h: Hash) { s.dest.Some? && s.dest.value.marker == Marker(h) }

  predicate WorkEnabled(s: State, q: Process, c: Choice) {
    match q.pc
    case FirstCheck => c.Go?
    case Waiting => c.Go? && s.lock.None?
    case Recheck => c.Go?
    case LookInCache => c.Go?
    case Downloading => c.Received? || c.Raise?
    case Verifying => c.Go? && q.variant.file in s.cache
    case ClearStaging => c.Go? || c.Tear?
    case Extracting => (c.Go? || c.Tear? || c.Raise?) && q.variant.file in s.cache
    case Marking => (c.Go? || c.Tear? || c.Raise?) && s.staging.Some?
    case ClearOld => c.Go? || c.Tear? || c.Raise?
    case Retiring => c.Go? || c.Raise?
    case Promoting => c.Go? || c.Raise?
    case DropOld => c.Go? || c.Tear? || c.Raise?
    case Unlinking => c.Go? || c.Raise?
    case Leaving(_) => c.Go?
    case Finished(_) => false
  }

  predicate Enabled(s: State, step: Step) {
    match step
    case Call(p, _) => p !in s.procs
    case Work(p, c) => p in s.procs && WorkEnabled(s, s.procs[p], c)
    case Crash(p) => p in s.procs
  }

  predicate Verified(sha: Bytes -> Hash, v: Variant, data: Bytes) {
    (v.size.None? || v.size.value == |data|) && sha(data) == v.hash
  }

  function NextPc(sha: Bytes -> Hash, s: State, q: Process, c: Choice): (pc: Pc)
    requires WorkEnabled(s, q, c)
  {
    var v := q.variant;
    match q.pc
    case FirstCheck => if Installed(s, v.hash) then Finished(Done) else Waiting
    case Waiting => Recheck
    case Recheck => if Installed(s, v.hash) then Leaving(Done) else LookInCache
    case LookInCache => if v.file in s.cache && sha(s.cache[v.file]) == v.hash then ClearStaging else Downloading
    case Downloading => if c.Raise? then Leaving(Error) else Verifying
    case Verifying => if Verified(sha, v, s.cache[v.file]) then ClearStaging else Leaving(Error)
    case ClearStaging => if c.Tear? then ClearStaging else Extracting
    case Extracting => if c.Raise? then Leaving(Error) else if c.Tear? then Extracting else Marking
    case Marking => if c.Raise? then Leaving(Error) else if c.Tear? then Marking else ClearOld
    case ClearOld => if c.Tear? then ClearOld else Retiring
    case Retiring => if c.Raise? || (s.dest.Some? && s.retired.Some?) then Leaving(Error) else Promoting
    case Promoting => if c.Raise? then Leaving(Error) else DropOld
    case DropOld => if c.Tear? then DropOld else Unlinking
    case Unlinking => Leaving(if c.Raise? then Error else Done)
    case Leaving(outcome) => Finished(outcome)
  }

  const RUIN := Some(Dir(Incomplete, NoMarker))

  function NextDest(s: State, pc: Pc, c: Choice): (r: Option<Dir>) {
    if pc.Retiring? && c.Go? && s.retired.None? then None
    else if pc.Promoting? && c.Go? then s.staging
    else s.dest
  }

  function NextRetired(s: State, pc: Pc, c: Choice): (r: Option<Dir>) {
    if pc.Retiring? && c.Go? && s.retired.None? then s.dest
    else if (pc.ClearOld? || pc.DropOld?) && c.Go? then None
    else if (pc.ClearOld? || pc.DropOld?) && c.Tear? && s.retired.Some? then RUIN
    else s.retired
  }

  function NextStaging(s: State, q: Process, c: Choice): (r: Option<Dir>)
    requires WorkEnabled(s, q, c)
  {
    match q.pc
    case ClearStaging => if c.Go? then None else if s.staging.Some? then RUIN else None
    case Extracting =>
      if c.Go? then Some(Dir(Extracted(s.cache[q.variant.file]), NoMarker)) else RUIN
    case Marking =>
      if c.Go? then Some(s.staging.value.(marker := Marker(q.variant.hash)))
      else if c.Tear? then Some(s.staging.value.(marker := TornMarker)) else s.staging
    case Promoting => if c.Go? then None else s.staging
    case _ => s.staging
  }

  function NextCache(sha: Bytes -> Hash, s: State, q: Process, c: Choice): (r: map<string, Bytes>)
    requires WorkEnabled(s, q, c)
  {
    var v := q.variant;
    if q.pc.Downloading? && c.Received? then s.cache[v.file := c.data]
    else if q.pc.Verifying? && !Verified(sha, v, s.cache[v.file]) then s.cache - {v.file}
    else if q.pc.Unlinking? && c.Go? then s.cache - {v.file}
    else s.cache
  }

  function NextLock(s: State, p: Pid, pc: Pc): (r: Option<Pid>) {
    if pc.Waiting? then Some(p) else if pc.Leaving? then None else s.lock
  }

  function DoWork(sha: Bytes -> Hash, s: State, p: Pid, c: Choice): (r: State)
    requires p in s.procs && WorkEnabled(s, s.procs[p], c)
  {
    var q := s.procs[p];
    State(NextDest(s, q.pc, c), NextRetired(s, q.pc, c), NextStaging(s, q, c), NextCache(sha, s, q, c),
          NextLock(s, p, q.pc), s.procs[p := q.(pc := NextPc(sha, s, q, c))],
          s.fetched + if q.pc.Downloading? && c.Received? then multiset{q.variant.hash} else multiset{})
  }

  function Do(sha: Bytes -> Hash, s: State, step: Step): (r: State)
    requires Enabled(s, step)
  {
    match step
    case Call(p, v) => s.(procs := s.procs[p := Process(v, FirstCheck)])
    case Work(p, c) => DoWork(sha, s, p, c)
    case Crash(p) => s.(procs := s.procs - {p}, lock := if s.lock == Some(p) then None else s.lock)
  }

  predicate Runs(sha: Bytes -> Hash, s: State, steps: seq<Step>)
    decreases |steps|
  {
    steps == [] || (Enabled(s, steps[0]) && Runs(sha, Do(sha, s, steps[0]), steps[1..]))
  }

  function After(sha: Bytes -> Hash, s: State, steps: seq<Step>): (r: State)
    requires Runs(sha, s, steps)
    decreases |steps|
  {
    if steps == [] then s else After(sha, Do(sha, s, steps[0]), steps[1..])
  }

  // ----------------------------------------------------------------- invariant

  /** Exactly the extraction of one archive, under a marker that is its hash. */
  predicate Genuine(sha: Bytes -> Hash, d: Dir) {
    d.content.Extracted? && d.marker == Marker(sha(d.content.archive))
  }

  ghost predicate LockOk(s: State) {
    forall p :: p in s.procs && InSection(s.procs[p].pc) ==> s.lock == Some(p)
  }

  /** What the process inside the section knows about the directories. */
  predicate SectionOk(sha: Bytes -> Hash, s: State, q: Process) {
    DirectoriesOk(sha, s, q) && (Working(q.pc) ==> !Installed(s, q.variant.hash))
  }

  /** On the way to an install: only a process that found its hash missing gets here. */
  predicate Working(pc: Pc) {
    pc.LookInCache? || pc.Downloading? || pc.Verifying? || pc.ClearStaging? || pc.Extracting? || pc.Marking?
    || pc.ClearOld? || pc.Retiring? || pc.Promoting?
  }

  predicate DirectoriesOk(sha: Bytes -> Hash, s: State, q: Process) {
    var v := q.variant;
    match q.pc
    case Verifying => v.file in s.cache
    case ClearStaging => v.file in s.cache && sha(s.cache[v.file]) == v.hash
    case Extracting => v.file in s.cache && sha(s.cache[v.file]) == v.hash
    case Marking => s.staging.Some? && s.staging.value.content.Extracted? && sha(s.staging.value.content.archive) == v.hash
    case ClearOld => Staged(sha, s, v.hash)
    case Retiring => Staged(sha, s, v.hash)
    case Promoting => Staged(sha, s, v.hash) && s.dest.None?
    case DropOld => Installed(s, v.hash)
    case Unlinking => Installed(s, v.hash)
    case Leaving(outcome) => outcome == Done ==> Installed(s, v.hash)
    case _ => true
  }

  predicate Staged(sha: Bytes -> Hash, s: State, h: Hash) {
    s.staging.Some? && Genuine(sha, s.staging.value) && s.staging.value.marker == Marker(h)
  }

  ghost predicate Inv(sha: Bytes -> Hash, s: State) {
    && (s.dest.Some? ==> Genuine(sha, s.dest.value))
    && LockOk(s)
    && (forall p :: p in s.procs ==> SectionOk(sha, s, s.procs[p]))
  }

  lemma {:induction false} HolderStep(sha: Bytes -> Hash, s: State, p: Pid, c: Choice)
    requires p in s.procs && WorkEnabled(s, s.procs[p], c) && SectionOk(sha, s, s.procs[p])
    requires s.dest.Some? ==> Genuine(sha, s.dest.value)
    ensures SectionOk(sha, DoWork(sha, s, p, c), DoWork(sha, s, p, c).procs[p])
    ensures var d := DoWork(sha, s, p, c).dest; d.Some? ==> Genuine(sha, d.value)
  {
  }

  lemma {:induction false} LockStep(sha: Bytes -> Hash, s: State, p: Pid, c: Choice)
    requires LockOk(s) && p in s.procs && WorkEnabled(s, s.procs[p], c)
    ensures LockOk(DoWork(sha, s, p, c))
  {
    var q := s.procs[p];
    assert InSection(NextPc(sha, s, q, c)) ==> q.pc.Waiting? || (InSection(q.pc) && !q.pc.Leaving?);
  }

  // A process outside the section knows nothing that others can spoil.
  lemma {:induction false} OutsidersStep(sha: Bytes -> Hash, s: State, p: Pid, c: Choice, u: Pid)
    requires Inv(sha, s) && p in s.procs && WorkEnabled(s, s.procs[p], c) && u in s.procs && u != p
    ensures SectionOk(sha, DoWork(sha, s, p, c), s.procs[u])
  {
    if InSection(s.procs[u].pc) {
      assert !InSection(s.procs[p].pc);
    }
  }

  lemma {:induction false} StepKeepsInv(sha: Bytes -> Hash, s: State, step: Step)
    requires Inv(sha, s) && Enabled(s, step)
    ensures Inv(sha, Do(sha, s, step))
  {
    match step
    case Work(p, c) =>
      HolderStep(sha, s, p, c);
      LockStep(sha, s, p, c);
      forall u | u in s.procs && u != p ensures SectionOk(sha, DoWork(sha, s, p, c), s.procs[u]) {
        OutsidersStep(sha, s, p, c, u);
      }
    case Call(_, _) =>
    case Crash(_) =>
  }

  lemma {:induction false} RunKeepsInv(sha: Bytes -> Hash, s: State, steps: seq<Step>)
    requires Inv(sha, s) && Runs(sha, s, steps)
    ensures Inv(sha, After(sha, s, steps))
    decreases |steps|
  {
    if steps != [] {
      StepKeepsInv(sha, s, steps[0]);
      RunKeepsInv(sha, Do(sha, s, steps[0]), steps[1..]);
    }
  }

  // -------------------------------------------------------------- main theorems

  /** No process is running yet; whatever earlier crashes left beside the engine
      directory, the directory itself is absent or genuine. */
  predicate Fresh(sha: Bytes -> Hash, s: State) {
    s.procs == map[] && s.lock.None? && (s.dest.Some? ==> Genuine(sha, s.dest.value))
  }

  /** Whatever the processes do and wherever they crash, the engine directory is absent
      or exactly the extraction of one archive whose hash is its marker. */
  lemma {:induction false} EngineAlwaysGenuine(sha: Bytes -> Hash, s: State, steps: seq<Step>)
    requires Fresh(sha, s) && Runs(sha, s, steps)
    ensures var d := After(sha, s, steps).dest; d.None? || Genuine(sha, d.value)
  {
    RunKeepsInv(sha, s, steps);
  }

  /** At most one process is between taking and releasing the lock. */
  lemma {:induction false} OneInstaller(sha: Bytes -> Hash, s: State, steps: seq<Step>, p: Pid, u: Pid)
    requires Fresh(sha, s) && Runs(sha, s, steps)
    ensures
      var r := After(sha, s, steps);
      p in r.procs && u in r.procs && InSection(r.procs[p].pc) && InSection(r.procs[u].pc) ==> p == u
  {
    RunKeepsInv(sha, s, steps);
  }

  /** A call returns only from a state in which the requested artifact is in place: the engine directory is the
      extraction of an archive of that hash, and says so. */
  lemma {:induction false} ReturnMeansInstalled(sha: Bytes -> Hash, s: State, steps: seq<Step>, step: Step, p: Pid)
    requires Fresh(sha, s) && Runs(sha, s, steps) && Enabled(After(sha, s, steps), step)
    requires
      var a := After(sha, s, steps);
      var b := Do(sha, a, step);
      p in a.procs && p in b.procs && a.procs[p].pc != Finished(Done) && b.procs[p].pc == Finished(Done)
    ensures
      var a := After(sha, s, steps);
      var h := a.procs[p].variant.hash;
      && a.dest.Some? && a.dest.value.marker == Marker(h)
      && a.dest.value.content.Extracted? && sha(a.dest.value.content.archive) == h
  {
    RunKeepsInv(sha, s, steps);
    var a := After(sha, s, steps);
    assert step.Work? && step.p == p;
    assert SectionOk(sha, a, a.procs[p]);
  }

  // ------------------------------------------- waiting callers do not fetch again

  /** This step moves the engine `h` out of the way: a process installing another hash has got that far. */
  predicate Replaces(s: State, step: Step, h: Hash)
    requires Enabled(s, step)
  {
    step.Work? && step.c.Go? && s.procs[step.p].pc.Retiring? && s.procs[step.p].variant.hash != h && s.retired.None?
  }

  /** Once in place, an engine stays in place unless and until such a step. */
  lemma {:induction false} StepKeepsEngineIff(sha: Bytes -> Hash, s: State, step: Step, h: Hash)
    requires Inv(sha, s) && Enabled(s, step) && Installed(s, h)
    ensures Installed(Do(sha, s, step), h) <==> !Replaces(s, step, h)
  {
    if step.Work? {
      assert SectionOk(sha, s, s.procs[step.p]);
    }
  }

  /** Nobody who asks for an engine in place is on the way to installing it, or fetches it. */
  lemma {:induction false} StepFetchesOnlyMissing(sha: Bytes -> Hash, s: State, step: Step, h: Hash, p: Pid)
    requires Inv(sha, s) && Enabled(s, step) && Installed(s, h)
    ensures Do(sha, s, step).fetched[h] == s.fetched[h]
    ensures p in s.procs && s.procs[p].variant.hash == h ==> !Working(s.procs[p].pc)
  {
    if step.Work? {
      assert SectionOk(sha, s, s.procs[step.p]);
    }
    if p in s.procs {
      assert SectionOk(sha, s, s.procs[p]);
    }
  }

  ghost predicate NeverReplaced(sha: Bytes -> Hash, s: State, steps: seq<Step>, h: Hash)
    requires Runs(sha, s, steps)
    decreases |steps|
  {
    steps == [] || (!Replaces(s, steps[0], h) && NeverReplaced(sha, Do(sha, s, steps[0]), steps[1..], h))
  }

  ghost predicate AlwaysInstalled(sha: Bytes -> Hash, s: State, steps: seq<Step>, h: Hash)
    requires Runs(sha, s, steps)
    decreases |steps|
  {
    Installed(s, h) && (steps == [] || AlwaysInstalled(sha, Do(sha, s, steps[0]), steps[1..], h))
  }

  /** Over a whole run of any number of processes for any versions, an engine that is in place
      stays so if and only if no process of another version gets as far as replacing it. */
  lemma {:induction false} EngineStaysIff(sha: Bytes -> Hash, s: State, steps: seq<Step>, h: Hash)
    requires Inv(sha, s) && Runs(sha, s, steps) && Installed(s, h)
    ensures AlwaysInstalled(sha, s, steps, h) <==> NeverReplaced(sha, s, steps, h)
    decreases |steps|
  {
    if steps != [] {
      StepKeepsInv(sha, s, steps[0]);
      StepKeepsEngineIff(sha, s, steps[0], h);
      if !Replaces(s, steps[0], h) {
        EngineStaysIff(sha, Do(sha, s, steps[0]), steps[1..], h);
      }
    }
  }

  /** Until then nobody fetches it again, whoever waited for it and whatever else is being
      fetched: every process that asks for it is waiting, done, or on its way out. */
  lemma {:induction false} WaitersDoNotFetch(sha: Bytes -> Hash, s: State, steps: seq<Step>, h: Hash, p: Pid)
    requires Inv(sha, s) && Runs(sha, s, steps) && Installed(s, h) && NeverReplaced(sha, s, steps, h)
    ensures
      var r := After(sha, s, steps);
      && Installed(r, h) && r.fetched[h] == s.fetched[h]
      && (p in r.procs && r.procs[p].variant.hash == h ==> !Working(r.procs[p].pc))
    decreases |steps|
  {
    if steps != [] {
      StepKeepsInv(sha, s, steps[0]);
      StepKeepsEngineIff(sha, s, steps[0], h);
      StepFetchesOnlyMissing(sha, s, steps[0], h, p);
      WaitersDoNotFetch(sha, Do(sha, s, steps[0]), steps[1..], h, p);
    } else if p in s.procs {
      assert SectionOk(sha, s, s.procs[p]);
    }
  }

  /** An install puts its hash in place: from that step on the theorem applies. */
  lemma {:induction false} InstallPutsInPlace(sha: Bytes -> Hash, s: State, p: Pid)
    requires Inv(sha, s) && Enabled(s, Work(p, Go)) && s.procs[p].pc.Promoting?
    ensures Installed(Do(sha, s, Work(p, Go)), s.procs[p].variant.hash)
  {
    assert SectionOk(sha, s, s.procs[p]);
  }

  ghost predicate AllWant(s: State, h: Hash) {
    forall p :: p in s.procs ==> s.procs[p].variant.hash == h
  }

  predicate OnlyAskFor(steps: seq<Step>, h: Hash) {
    forall i :: 0 <= i < |steps| && steps[i].Call? ==> steps[i].v.hash == h
  }

  lemma {:induction false} OneVersionIsNeverReplaced(sha: Bytes -> Hash, s: State, steps: seq<Step>, h: Hash)
    requires Runs(sha, s, steps) && AllWant(s, h) && OnlyAskFor(steps, h)
    ensures NeverReplaced(sha, s, steps, h)
    decreases |steps|
  {
    if steps != [] {
      assert forall i :: 0 <= i < |steps[1..]| ==> steps[1..][i] == steps[i + 1];
      OneVersionIsNeverReplaced(sha, Do(sha, s, steps[0]), steps[1..], h);
    }
  }

  /** In particular, while only one version is asked for, its engine is fetched no more once installed. */
  lemma {:induction false} OneVersionIsFetchedOnce(sha: Bytes -> Hash, s: State, steps: seq<Step>, h: Hash)
    requires Inv(sha, s) && Runs(sha, s, steps) && Installed(s, h) && AllWant(s, h) && OnlyAskFor(steps, h)
    ensures After(sha, s, steps).fetched[h] == s.fetched[h] && Installed(After(sha, s, steps), h)
  {
    OneVersionIsNeverReplaced(sha, s, steps, h);
    WaitersDoNotFetch(sha, s, steps, h, 0);
  }
}
