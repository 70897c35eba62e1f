/**
 The deploy / cancel / commit protocol of `AgentRuntime`: any number of deploy
 worker threads interleaved with DEPLOY_MODEL and CANCEL_DEPLOY handlers, with
 shutdown, with model removals and with any other thread that takes the ops and
 state locks (src/link/app/runtime.py:588-901).

 A state is everything the threads share plus each worker's program counter and
 local variables.  A step is one action of one thread; whatever the environment
 decides (a read that raises, the next chunk, a failing unlink) is part of the
 step.  A handler's `with self.lock` section is one step, taken when the lock is
 free; a worker's commit section is three steps, because shutdown sets the
 cancel event without the lock.
 */
module DeployProtocol {
  import opened Common
  import ModelFiles

  type Tid = nat

  datatype Status = Completed | Failed

  datatype Command = Command(id: string, pipelineId: string, configId: string, modelName: string, config: string)

  // Where a worker goes once it has left the download lock.
  datatype Next = ToCommit | ToCleanup | ToError

  datatype Pc =
    | Starting                    // mkdir, paths, url
    | Queued                      // waiting for the download lock of the file
    | Entered                     // lock held: first cancel check
    | Probing                     // target_path.exists()
    | Clearing                    // remove a stale partial
    | Opening                     // request, status, content-length, open "wb"
    | Streaming                   // chunk loop
    | Caught                      // exception handler of the download
    | Measuring                   // short-read guard
    | LastCheck                   // cancel guard before the rename
    | Publishing                  // partial_path.replace(target_path)
    | Abandoning(cleanup: bool)   // cancelled: best-effort cleanup, then report
    | Breaking                    // failed: best-effort cleanup, then report
    | Leaving(next: Next)         // release the download lock
    | WantOps
    | WantLock
    | CommitCheck                 // both locks held: last cancel check
    | CommitWrite
    | DropLock(ok: bool)
    | DropOps(ok: bool)
    | Reporting(status: Status)   // the worker's own terminal report
    | Cleanup                     // `finally`: drop the registration
    | Exited

  datatype Worker = Worker(
    cmd: Command,
    pc: Pc,
    cancel: bool,
    total: nat,
    done: nat,
    // Histories: terminal reports sent, and commits of the config.
    sent: seq<Status>,
    commits: nat)

  datatype Owner = WorkerThread(t: Tid) | OtherThread

  datatype State = State(
    fs: map<string, Bytes>,          // files of models/
    configs: map<string, string>,    // pipeline_configs
    persisted: map<string, string>,  // the state manager's definitions
    registry: map<string, Tid>,      // _agent_workers
    workers: map<Tid, Worker>,
    downloadLocks: map<string, Tid>, // held download locks, by model name
    ops: Option<Owner>,
    lock: Option<Owner>,
    signalled: set<Tid>)             // the workers shutdown has listed

  // What the environment chooses for a worker's step.
  datatype Choice = Go | Raise | Headers(total: nat) | Chunk(data: Bytes) | EndOfBody

  datatype Step =
    | Deploy(cmd: Command, t: Tid, starts: bool)
    | Cancel(pipelineId: string)
    | ShutdownList
    | ShutdownSignal(t: Tid)
    | OtherTakesOps
    | OtherTakesLock
    | OtherWrites(configs: map<string, string>, persisted: map<string, string>)
    | OtherDropsLock
    | OtherDropsOps
    | RemoveModel(name: string)
    | Work(t: Tid, c: Choice)

  const SUFFIX := ".partial"

  function PartialName(name: string): (p: string) { name + SUFFIX }

  predicate IsPartialName(name: string) {
    |name| >= |SUFFIX| && name[|name| - |SUFFIX|..] == SUFFIX
  }

  /** The two refusals of `_deploy_model` before it takes the lock. */
  predicate Accepted(cmd: Command) {
    && cmd.configId == cmd.pipelineId
    && (cmd.modelName == "" || ModelFiles.IsSafeBasename(cmd.modelName))
  }

  /** An empty model name names the models directory itself, which exists. */
  predicate TargetExists(fs: map<string, Bytes>, name: string) {
    name == "" || name in fs
  }

  predicate HoldsDownload(pc: Pc) {
    pc.Entered? || pc.Probing? || Downloading(pc) || pc.Abandoning? || pc.Breaking? || pc.Leaving?
  }

  // Inside `_download_and_publish`, with the outcome still open.
  predicate Downloading(pc: Pc) {
    pc.Clearing? || pc.Opening? || pc.Streaming? || pc.Caught? || pc.Measuring? || pc.LastCheck? || pc.Publishing?
  }

  // The staging file is open or complete, and holds `done` bytes.
  predicate Staged(pc: Pc) {
    pc.Streaming? || pc.Measuring? || pc.LastCheck? || pc.Publishing?
  }

  predicate HoldsOps(pc: Pc) { pc.WantLock? || HoldsLock(pc) || pc.DropOps? }

  predicate HoldsLock(pc: Pc) { pc.CommitCheck? || pc.CommitWrite? || pc.DropLock? }

  /** The commit section has not yet read the cancel event. */
  predicate BeforeCommitCheck(pc: Pc) {
    pc.Starting? || pc.Queued? || pc.Entered? || pc.Probing? || Downloading(pc) || pc.Abandoning? || pc.Breaking?
    || pc.Leaving? || pc.WantOps? || pc.WantLock? || pc.CommitCheck?
  }

  /** `existing is not None and existing.thread.is_alive()` for the pipeline. */
  predicate Busy(s: State, pipelineId: string) {
    pipelineId in s.registry && s.registry[pipelineId] in s.workers
    && !s.workers[s.registry[pipelineId]].pc.Exited?
  }

  predicate WorkEnabled(s: State, w: Worker, c: Choice) {
    match w.pc
    case Queued => c.Go? && w.cmd.modelName !in s.downloadLocks
    case Opening => c.Headers? || c.Raise?
    case Streaming => c.Chunk? || c.EndOfBody? || c.Raise?
    case WantOps => c.Go? && s.ops.None?
    case WantLock => c.Go? && s.lock.None?
    case Cleanup => c.Go? && s.lock.None?
    case Starting | Probing | Clearing | Publishing | Abandoning(_) | Breaking => c.Go? || c.Raise?
    case Exited => false
    case _ => c.Go?
  }

  predicate Enabled(s: State, step: Step) {
    match step
    case Deploy(cmd, t, _) => s.lock.None? && t !in s.workers && !IsPartialName(cmd.modelName)
    case Cancel(_) => s.lock.None?
    case ShutdownList => s.lock.None?
    case ShutdownSignal(t) => t in s.signalled && t in s.workers
    case OtherTakesOps => s.ops.None?
    case OtherTakesLock => s.lock.None?
    case OtherWrites(_, _) => s.lock == Some(OtherThread)
    case OtherDropsLock => s.lock == Some(OtherThread)
    case OtherDropsOps => s.ops == Some(OtherThread)
    case RemoveModel(name) => !IsPartialName(name)
    case Work(t, c) => t in s.workers && WorkEnabled(s, s.workers[t], c)
  }

  /** The entry is written before the thread is started. A thread that cannot be created is not alive,
      its entry stays, and the handler reports the command failed. */
  function Register(s: State, cmd: Command, t: Tid, starts: bool): (r: State) {
    var w := if starts then Worker(cmd, Starting, false, 0, 0, [], 0) else Worker(cmd, Exited, false, 0, 0, [Failed], 0);
    s.(registry := s.registry[cmd.pipelineId := t], workers := s.workers[t := w])
  }

  // `cancel_event.set()`
  function Signal(s: State, t: Tid): (r: State)
    requires t in s.workers
  {
    s.(workers := s.workers[t := s.workers[t].(cancel := true)])
  }

  // The worker's next local state; what it does to the shared state follows.
  function WorkLocal(s: State, w: Worker, c: Choice): (r: Worker)
    requires WorkEnabled(s, w, c)
  {
    match w.pc
    case Starting => w.(pc := if c.Raise? then Reporting(Failed) else Queued)
    case Queued => w.(pc := Entered)
    case Entered => w.(pc := if w.cancel then Abandoning(false) else Probing)
    case Probing =>
      w.(pc := if c.Raise? then Leaving(ToError)
               else if TargetExists(s.fs, w.cmd.modelName) then Leaving(ToCommit) else Clearing)
    case Clearing => w.(pc := Opening)
    case Opening =>
      if c.Raise? then w.(pc := Caught) else w.(pc := Streaming, total := c.total, done := 0)
    case Streaming =>
      if c.Raise? then w.(pc := Caught)
      else if c.EndOfBody? then w.(pc := Measuring)
      else if w.cancel then w.(pc := Abandoning(true))
      else w.(done := w.done + |c.data|)
    case Caught => w.(pc := if w.cancel then Abandoning(true) else Breaking)
    case Measuring => w.(pc := if w.total != 0 && w.done != w.total then Breaking else LastCheck)
    case LastCheck => w.(pc := if w.cancel then Abandoning(true) else Publishing)
    case Publishing => w.(pc := if c.Raise? then Leaving(ToError) else Leaving(ToCommit))
    case Abandoning(_) => w.(pc := Leaving(ToCleanup), sent := w.sent + [Failed])
    case Breaking => w.(pc := Leaving(ToCleanup), sent := w.sent + [Failed])
    case Leaving(next) =>
      w.(pc := match next case ToCommit => WantOps case ToCleanup => Cleanup case ToError => Reporting(Failed))
    case WantOps => w.(pc := WantLock)
    case WantLock => w.(pc := CommitCheck)
    case CommitCheck => w.(pc := if w.cancel then DropLock(false) else CommitWrite)
    case CommitWrite => w.(pc := DropLock(true), commits := w.commits + 1)
    case DropLock(ok) => w.(pc := DropOps(ok))
    case DropOps(ok) => w.(pc := Reporting(if ok then Completed else Failed))
    case Reporting(status) => w.(pc := Cleanup, sent := w.sent + [status])
    case Cleanup => w.(pc := Exited)
  }

  function NextFiles(fs: map<string, Bytes>, w: Worker, c: Choice): (r: map<string, Bytes>) {
    var name := w.cmd.modelName;
    var partialName := PartialName(name);
    match w.pc
    case Clearing => if c.Go? then fs - {partialName} else fs
    case Opening => if c.Headers? then fs[partialName := []] else fs
    case Streaming =>
      if c.Chunk? && !w.cancel && partialName in fs then fs[partialName := fs[partialName] + c.data] else fs
    case Publishing => if c.Go? && partialName in fs then fs[name := fs[partialName]] - {partialName} else fs
    case Abandoning(cleanup) => if cleanup && c.Go? then fs - {partialName} else fs
    case Breaking => if c.Go? then fs - {partialName} else fs
    case _ => fs
  }

  function NextDownloadLocks(locks: map<string, Tid>, t: Tid, w: Worker): (r: map<string, Tid>) {
    if w.pc.Queued? then locks[w.cmd.modelName := t]
    else if w.pc.Leaving? then locks - {w.cmd.modelName}
    else locks
  }

  // The `finally` block compares command ids before it drops the entry.
  function NextRegistry(s: State, w: Worker): (r: map<string, Tid>) {
    var p := w.cmd.pipelineId;
    if w.pc.Cleanup? && p in s.registry && s.registry[p] in s.workers && s.workers[s.registry[p]].cmd.id == w.cmd.id
    then s.registry - {p} else s.registry
  }

  function NextOps(ops: Option<Owner>, t: Tid, pc: Pc): (r: Option<Owner>) {
    if pc.WantOps? then Some(WorkerThread(t)) else if pc.DropOps? then None else ops
  }

  function NextLock(lock: Option<Owner>, t: Tid, pc: Pc): (r: Option<Owner>) {
    if pc.WantLock? then Some(WorkerThread(t)) else if pc.DropLock? then None else lock
  }

  function Commit(configs: map<string, string>, w: Worker): (r: map<string, string>) {
    if w.pc.CommitWrite? then configs[w.cmd.pipelineId := w.cmd.config] else configs
  }

  function DoWork(s: State, t: Tid, c: Choice): (r: State)
    requires t in s.workers && WorkEnabled(s, s.workers[t], c)
  {
    var w := s.workers[t];
    State(NextFiles(s.fs, w, c), Commit(s.configs, w), Commit(s.persisted, w), NextRegistry(s, w),
          s.workers[t := WorkLocal(s, w, c)], NextDownloadLocks(s.downloadLocks, t, w),
          NextOps(s.ops, t, w.pc), NextLock(s.lock, t, w.pc), s.signalled)
  }

  function Do(s: State, step: Step): (r: State)
    requires Enabled(s, step)
  {
    match step
    case Deploy(cmd, t, starts) =>
      if !Accepted(cmd) || Busy(s, cmd.pipelineId) then s
      else Register(s, cmd, t, starts)
    case Cancel(p) =>
      if Busy(s, p) then Signal(s, s.registry[p]) else s
    case ShutdownList => s.(signalled := s.registry.Values)
    case ShutdownSignal(t) => Signal(s, t)
    case OtherTakesOps => s.(ops := Some(OtherThread))
    case OtherTakesLock => s.(lock := Some(OtherThread))
    case OtherWrites(configs, persisted) => s.(configs := configs, persisted := persisted)
    case OtherDropsLock => s.(lock := None)
    case OtherDropsOps => s.(ops := None)
    case RemoveModel(name) => s.(fs := s.fs - {name})
    case Work(t, c) => DoWork(s, t, c)
  }

  predicate Init(s: State) {
    && s.registry == map[] && s.workers == map[] && s.downloadLocks == map[]
    && s.ops.None? && s.lock.None? && s.signalled == {}
  }

  /** A finite run: every step is enabled where it is taken. */
  predicate Runs(s: State, steps: seq<Step>)
    decreases |steps|
  {
    steps == [] || (Enabled(s, steps[0]) && Runs(Do(s, steps[0]), steps[1..]))
  }

  function After(s: State, steps: seq<Step>): (r: State)
    requires Runs(s, steps)
    decreases |steps|
  {
    if steps == [] then s else After(Do(s, steps[0]), steps[1..])
  }

  // ---------------------------------------------------------------- invariant

  ghost predicate RegistryNamesLiveWorkers(s: State) {
    && (forall p :: p in s.registry ==>
          s.registry[p] in s.workers && s.workers[s.registry[p]].cmd.pipelineId == p)
    && (forall t :: t in s.workers && !s.workers[t].pc.Exited? ==>
          s.workers[t].cmd.pipelineId in s.registry && s.registry[s.workers[t].cmd.pipelineId] == t)
  }

  ghost predicate DownloadLocksMatch(s: State) {
    && (forall f :: f in s.downloadLocks ==>
          s.downloadLocks[f] in s.workers && s.workers[s.downloadLocks[f]].cmd.modelName == f
          && HoldsDownload(s.workers[s.downloadLocks[f]].pc))
    && (forall t :: t in s.workers && HoldsDownload(s.workers[t].pc) ==>
          s.workers[t].cmd.modelName in s.downloadLocks && s.downloadLocks[s.workers[t].cmd.modelName] == t)
  }

  ghost predicate CommitLocksMatch(s: State) {
    && (forall t :: t in s.workers && HoldsOps(s.workers[t].pc) ==> s.ops == Some(WorkerThread(t)))
    && (forall t :: t in s.workers && HoldsLock(s.workers[t].pc) ==> s.lock == Some(WorkerThread(t)))
  }

  predicate WorkerOk(w: Worker) {
    !IsPartialName(w.cmd.modelName) && CountsOk(w) && SentOk(w) && SizeOk(w)
  }

  predicate CountsOk(w: Worker) {
    && (BeforeCommitCheck(w.pc) || w.pc.CommitWrite? ==> w.commits == 0)
    && (w.pc.DropLock? ==> w.commits == if w.pc.ok then 1 else 0)
    && (w.pc.DropOps? ==> w.commits == if w.pc.ok then 1 else 0)
    && (w.pc.Reporting? ==> w.commits == if w.pc.status == Completed then 1 else 0)
  }

  predicate SentOk(w: Worker) {
    if w.pc.Cleanup? || w.pc.Exited? || w.pc == Leaving(ToCleanup)
    then w.sent == [if w.commits == 1 then Completed else Failed] && w.commits <= 1
    else w.sent == []
  }

  predicate SizeOk(w: Worker) {
    w.pc.LastCheck? || w.pc.Publishing? ==> w.total == 0 || w.done == w.total
  }

  // While a worker downloads, its target is absent; while it stages, the partial
  // file holds exactly the bytes it has counted.
  ghost predicate OwnFilesOk(fs: map<string, Bytes>, w: Worker) {
    && (Downloading(w.pc) ==> !TargetExists(fs, w.cmd.modelName))
    && (Staged(w.pc) ==>
          PartialName(w.cmd.modelName) in fs && |fs[PartialName(w.cmd.modelName)]| == w.done)
  }

  ghost predicate FilesOk(s: State) {
    forall t :: t in s.workers ==> OwnFilesOk(s.fs, s.workers[t])
  }

  ghost predicate Inv(s: State) {
    && RegistryNamesLiveWorkers(s)
    && DownloadLocksMatch(s)
    && CommitLocksMatch(s)
    && (forall t :: t in s.workers ==> WorkerOk(s.workers[t]))
    && FilesOk(s)
  }

  lemma NamesDoNotClash(a: string, b: string)
    ensures IsPartialName(PartialName(a))
    ensures PartialName(a) == PartialName(b) ==> a == b
  {
    assert PartialName(a)[|a|..] == SUFFIX;
    if PartialName(a) == PartialName(b) {
      assert a == PartialName(a)[..|a|];
      assert b == PartialName(b)[..|b|];
    }
  }

  // ------------------------------------------- one worker step, summarised

  lemma LocalStep(s: State, w: Worker, c: Choice)
    requires WorkEnabled(s, w, c) && WorkerOk(w)
    ensures WorkerOk(WorkLocal(s, w, c))
  {
    LocalStepCounts(s, w, c);
    LocalStepSent(s, w, c);
    LocalStepSize(s, w, c);
    LocalStepLocks(s, w, c);
  }

  lemma LocalStepCounts(s: State, w: Worker, c: Choice)
    requires WorkEnabled(s, w, c) && CountsOk(w)
    ensures CountsOk(WorkLocal(s, w, c))
  {
  }

  lemma LocalStepSent(s: State, w: Worker, c: Choice)
    requires WorkEnabled(s, w, c) && CountsOk(w) && SentOk(w)
    ensures SentOk(WorkLocal(s, w, c))
  {
  }

  lemma LocalStepSize(s: State, w: Worker, c: Choice)
    requires WorkEnabled(s, w, c) && SizeOk(w)
    ensures SizeOk(WorkLocal(s, w, c))
  {
  }

  lemma LocalStepLocks(s: State, w: Worker, c: Choice)
    requires WorkEnabled(s, w, c)
    ensures
      var r := WorkLocal(s, w, c);
      && r.cmd == w.cmd && r.cancel == w.cancel
      && !w.pc.Exited? && (r.pc.Exited? <==> w.pc.Cleanup?)
      && (HoldsDownload(r.pc) <==> w.pc.Queued? || (HoldsDownload(w.pc) && !w.pc.Leaving?))
      && (HoldsOps(r.pc) <==> w.pc.WantOps? || (HoldsOps(w.pc) && !w.pc.DropOps?))
      && (HoldsLock(r.pc) <==> w.pc.WantLock? || (HoldsLock(w.pc) && !w.pc.DropLock?))
  {
  }

  // What a step of worker `t` may do to the state, without saying which step.
  ghost predicate WorkEffect(s: State, t: Tid, r: State) {
    t in s.workers && t in r.workers && r.workers == s.workers[t := r.workers[t]]
    && var w, w' := s.workers[t], r.workers[t];
    && w'.cmd == w.cmd && w'.cancel == w.cancel && WorkerOk(w')
    && !w.pc.Exited? && (w'.pc.Exited? <==> w.pc.Cleanup?)
    && (HoldsDownload(w'.pc) <==> w.pc.Queued? || (HoldsDownload(w.pc) && !w.pc.Leaving?))
    && (HoldsOps(w'.pc) <==> w.pc.WantOps? || (HoldsOps(w.pc) && !w.pc.DropOps?))
    && (HoldsLock(w'.pc) <==> w.pc.WantLock? || (HoldsLock(w.pc) && !w.pc.DropLock?))
    && r.registry == (if w.pc.Cleanup? then s.registry - {w.cmd.pipelineId} else s.registry)
    && (w.pc.Queued? ==> w.cmd.modelName !in s.downloadLocks)
    && r.downloadLocks == NextDownloadLocks(s.downloadLocks, t, w)
    && (w.pc.WantOps? ==> s.ops.None?) && (w.pc.WantLock? ==> s.lock.None?)
    && r.ops == NextOps(s.ops, t, w.pc)
    && r.lock == NextLock(s.lock, t, w.pc)
  }

  lemma WorkHasEffect(s: State, t: Tid, c: Choice)
    requires RegistryNamesLiveWorkers(s) && Enabled(s, Work(t, c)) && WorkerOk(s.workers[t])
    ensures WorkEffect(s, t, Do(s, Work(t, c)))
  {
    var w := s.workers[t];
    LocalStep(s, w, c);
    LocalStepLocks(s, w, c);
  }

  lemma EffectKeepsRegistry(s: State, t: Tid, r: State)
    requires RegistryNamesLiveWorkers(s) && WorkEffect(s, t, r)
    ensures RegistryNamesLiveWorkers(r)
  {
  }

  lemma EffectKeepsDownloadLocks(s: State, t: Tid, r: State)
    requires DownloadLocksMatch(s) && WorkEffect(s, t, r)
    ensures DownloadLocksMatch(r)
  {
  }

  lemma EffectKeepsCommitLocks(s: State, t: Tid, r: State)
    requires CommitLocksMatch(s) && WorkEffect(s, t, r)
    ensures CommitLocksMatch(r)
  {
  }

  lemma EffectKeepsWorkers(s: State, t: Tid, r: State)
    requires (forall u :: u in s.workers ==> WorkerOk(s.workers[u])) && WorkEffect(s, t, r)
    ensures forall u :: u in r.workers ==> WorkerOk(r.workers[u])
  {
    forall u | u in r.workers ensures WorkerOk(r.workers[u]) {
      assert u == t || r.workers[u] == s.workers[u];
    }
  }

  // What the step may do to the files: only the lock holder's own two paths.
  ghost predicate FileEffect(s: State, t: Tid, r: State) {
    t in s.workers && t in r.workers
    && var w, w' := s.workers[t], r.workers[t];
    && (r.fs != s.fs ==> HoldsDownload(w.pc))
    && (forall n :: n != w.cmd.modelName && n != PartialName(w.cmd.modelName) ==>
          (n in r.fs <==> n in s.fs) && (n in r.fs ==> r.fs[n] == s.fs[n]))
    && w'.cmd == w.cmd && OwnFilesOk(r.fs, w')
  }

  lemma {:induction false} FilesStep(fs: map<string, Bytes>, w: Worker, c: Choice, n: string)
    requires n != w.cmd.modelName && n != PartialName(w.cmd.modelName)
    ensures
      var r := NextFiles(fs, w, c);
      && (r != fs ==> HoldsDownload(w.pc))
      && (n in r <==> n in fs) && (n in r ==> r[n] == fs[n])
  {
  }

  lemma OwnFilesStep(s: State, w: Worker, c: Choice)
    requires WorkEnabled(s, w, c) && OwnFilesOk(s.fs, w)
    ensures OwnFilesOk(NextFiles(s.fs, w, c), WorkLocal(s, w, c))
  {
    assert |PartialName(w.cmd.modelName)| > |w.cmd.modelName|;
  }

  lemma WorkHasFileEffect(s: State, t: Tid, c: Choice)
    requires t in s.workers && WorkEnabled(s, s.workers[t], c) && OwnFilesOk(s.fs, s.workers[t])
    ensures FileEffect(s, t, DoWork(s, t, c))
  {
    var w := s.workers[t];
    LocalStepLocks(s, w, c);
    OwnFilesStep(s, w, c);
    forall n | n != w.cmd.modelName && n != PartialName(w.cmd.modelName)
      ensures (n in NextFiles(s.fs, w, c) <==> n in s.fs) && (n in s.fs ==> NextFiles(s.fs, w, c)[n] == s.fs[n])
    {
      FilesStep(s.fs, w, c, n);
    }
    var other := PartialName(PartialName(w.cmd.modelName));
    FilesStep(s.fs, w, c, other);
  }

  lemma EffectKeepsFiles(s: State, t: Tid, r: State)
    requires Inv(s) && WorkEffect(s, t, r) && FileEffect(s, t, r)
    ensures FilesOk(r)
  {
    forall u | u in r.workers && u != t ensures OwnFilesOk(r.fs, r.workers[u]) {
      EffectSparesOthers(s, t, r, u);
    }
  }

  lemma EffectSparesOthers(s: State, t: Tid, r: State, u: Tid)
    requires DownloadLocksMatch(s) && WorkEffect(s, t, r) && FileEffect(s, t, r)
    requires u in s.workers && u != t && WorkerOk(s.workers[u]) && WorkerOk(s.workers[t]) && OwnFilesOk(s.fs, s.workers[u])
    ensures u in r.workers && OwnFilesOk(r.fs, r.workers[u])
  {
    assert r.workers[u] == s.workers[u];
    var name, other := s.workers[t].cmd.modelName, s.workers[u].cmd.modelName;
    NamesDoNotClash(name, other);
    NamesDoNotClash(other, name);
  }

  lemma RegisterKeepsRegistry(s: State, cmd: Command, t: Tid, starts: bool)
    requires RegistryNamesLiveWorkers(s) && t !in s.workers && !Busy(s, cmd.pipelineId)
    ensures RegistryNamesLiveWorkers(Register(s, cmd, t, starts))
  {
  }

  lemma RegisterKeepsLocks(s: State, cmd: Command, t: Tid, starts: bool)
    requires DownloadLocksMatch(s) && CommitLocksMatch(s) && t !in s.workers
    ensures DownloadLocksMatch(Register(s, cmd, t, starts)) && CommitLocksMatch(Register(s, cmd, t, starts))
  {
  }

  lemma RegisterKeepsWorkers(s: State, cmd: Command, t: Tid, starts: bool)
    requires FilesOk(s) && (forall u :: u in s.workers ==> WorkerOk(s.workers[u]))
    requires t !in s.workers && !IsPartialName(cmd.modelName)
    ensures FilesOk(Register(s, cmd, t, starts))
    ensures forall u :: u in Register(s, cmd, t, starts).workers ==> WorkerOk(Register(s, cmd, t, starts).workers[u])
  {
  }

  lemma RegisterKeepsInv(s: State, cmd: Command, t: Tid, starts: bool)
    requires Inv(s) && t !in s.workers && !Busy(s, cmd.pipelineId) && !IsPartialName(cmd.modelName)
    ensures Inv(Register(s, cmd, t, starts))
  {
    RegisterKeepsRegistry(s, cmd, t, starts);
    RegisterKeepsLocks(s, cmd, t, starts);
    RegisterKeepsWorkers(s, cmd, t, starts);
  }

  lemma SignalKeepsRegistry(s: State, t: Tid)
    requires t in s.workers && RegistryNamesLiveWorkers(s)
    ensures RegistryNamesLiveWorkers(Signal(s, t))
  {
    assert forall u :: u in s.workers ==>
             Signal(s, t).workers[u].pc == s.workers[u].pc && Signal(s, t).workers[u].cmd == s.workers[u].cmd;
  }

  lemma SignalKeepsLocks(s: State, t: Tid)
    requires t in s.workers && DownloadLocksMatch(s) && CommitLocksMatch(s)
    ensures DownloadLocksMatch(Signal(s, t)) && CommitLocksMatch(Signal(s, t))
  {
    assert forall u :: u in s.workers ==>
             Signal(s, t).workers[u].pc == s.workers[u].pc && Signal(s, t).workers[u].cmd == s.workers[u].cmd;
  }

  lemma SignalKeepsWorkers(s: State, t: Tid)
    requires t in s.workers && FilesOk(s) && (forall u :: u in s.workers ==> WorkerOk(s.workers[u]))
    ensures FilesOk(Signal(s, t))
    ensures forall u :: u in Signal(s, t).workers ==> WorkerOk(Signal(s, t).workers[u])
  {
    assert WorkerOk(s.workers[t]) && OwnFilesOk(s.fs, s.workers[t]);
  }

  lemma SignalKeepsInv(s: State, t: Tid)
    requires Inv(s) && t in s.workers
    ensures Inv(Signal(s, t))
  {
    SignalKeepsRegistry(s, t);
    SignalKeepsLocks(s, t);
    SignalKeepsWorkers(s, t);
  }

  lemma RemoveKeepsFiles(s: State, name: string)
    requires FilesOk(s) && !IsPartialName(name)
    ensures FilesOk(s.(fs := s.fs - {name}))
  {
    forall u | u in s.workers ensures PartialName(s.workers[u].cmd.modelName) != name {
      NamesDoNotClash(s.workers[u].cmd.modelName, name);
    }
  }

  lemma WorkKeepsInv(s: State, t: Tid, c: Choice)
    requires Inv(s) && Enabled(s, Work(t, c))
    ensures Inv(DoWork(s, t, c))
  {
    var r := DoWork(s, t, c);
    WorkHasEffect(s, t, c);
    WorkHasFileEffect(s, t, c);
    EffectKeepsRegistry(s, t, r);
    EffectKeepsDownloadLocks(s, t, r);
    EffectKeepsCommitLocks(s, t, r);
    EffectKeepsFiles(s, t, r);
    EffectKeepsWorkers(s, t, r);
  }

  lemma StepKeepsInv(s: State, step: Step)
    requires Inv(s) && Enabled(s, step)
    ensures Inv(Do(s, step))
  {
    match step
    case Work(t, c) => WorkKeepsInv(s, t, c);
    case Deploy(cmd, t, starts) =>
      if Accepted(cmd) && !Busy(s, cmd.pipelineId) {
        RegisterKeepsInv(s, cmd, t, starts);
      }
    case Cancel(p) => if Busy(s, p) { SignalKeepsInv(s, s.registry[p]); }
    case ShutdownSignal(t) => SignalKeepsInv(s, t);
    case RemoveModel(name) => RemoveKeepsFiles(s, name);
    case ShutdownList | OtherTakesOps | OtherTakesLock | OtherWrites(_, _) | OtherDropsLock | OtherDropsOps =>
      OtherKeepsInv(s, step);
  }

  // Another thread takes a lock that is free and drops only its own.
  lemma OtherKeepsInv(s: State, step: Step)
    requires Inv(s) && Enabled(s, step)
    requires step.ShutdownList? || step.OtherTakesOps? || step.OtherTakesLock? || step.OtherWrites?
             || step.OtherDropsLock? || step.OtherDropsOps?
    ensures Inv(Do(s, step))
  {
  }

  lemma {:induction false} RunKeepsInv(s: State, steps: seq<Step>)
    requires Inv(s) && Runs(s, steps)
    ensures Inv(After(s, steps))
    decreases |steps|
  {
    if steps != [] {
      StepKeepsInv(s, steps[0]);
      RunKeepsInv(Do(s, steps[0]), steps[1..]);
    }
  }

  // ------------------------------------------------------------ main theorems

  /** Every reachable state has at most one worker per pipeline that has not
      finished its cleanup, and the registry names exactly that worker. */
  lemma {:induction false} OneLiveWorkerPerPipeline(s: State, steps: seq<Step>, t: Tid, u: Tid)
    requires Init(s) && Runs(s, steps)
    ensures
      var r := After(s, steps);
      t in r.workers && u in r.workers && !r.workers[t].pc.Exited? && !r.workers[u].pc.Exited?
      && r.workers[t].cmd.pipelineId == r.workers[u].cmd.pipelineId
      ==> t == u && r.workers[t].cmd.pipelineId in r.registry && r.registry[r.workers[t].cmd.pipelineId] == t
  {
    RunKeepsInv(s, steps);
  }

  /** Every deploy sends at most one terminal report, and exactly one by the time
      its thread ends, or cannot be created; it is "completed" iff the config was committed. */
  lemma {:induction false} OneTerminalReport(s: State, steps: seq<Step>, t: Tid)
    requires Init(s) && Runs(s, steps)
    requires t in After(s, steps).workers
    ensures
      var w := After(s, steps).workers[t];
      && |w.sent| <= 1 && w.commits <= 1
      && (w.pc.Exited? ==> |w.sent| == 1)
      && (|w.sent| == 1 ==> (w.sent[0] == Completed <==> w.commits == 1))
  {
    RunKeepsInv(s, steps);
  }

  /** A cancelled worker that has not committed and is not past its check. */
  ghost predicate Doomed(s: State, t: Tid) {
    && t in s.workers && s.workers[t].cancel && s.workers[t].commits == 0
    && !s.workers[t].pc.CommitWrite?
  }

  lemma LocalCommits(s: State, w: Worker, c: Choice)
    requires WorkEnabled(s, w, c)
    ensures WorkLocal(s, w, c).commits == w.commits + (if w.pc.CommitWrite? then 1 else 0)
    ensures WorkLocal(s, w, c).pc.CommitWrite? ==> w.pc.CommitCheck? && !w.cancel
  {
  }

  lemma StepKeepsDoomed(s: State, step: Step, t: Tid)
    requires Enabled(s, step) && Doomed(s, t)
    ensures Doomed(Do(s, step), t)
  {
    if step.Work? && step.t == t {
      LocalCommits(s, s.workers[t], step.c);
      LocalStepLocks(s, s.workers[t], step.c);
    }
  }

  lemma {:induction false} DoomedNeverCommits(s: State, steps: seq<Step>, t: Tid)
    requires Inv(s) && Runs(s, steps) && Doomed(s, t)
    ensures Inv(After(s, steps)) && Doomed(After(s, steps), t)
    decreases |steps|
  {
    if steps != [] {
      StepKeepsInv(s, steps[0]);
      StepKeepsDoomed(s, steps[0], t);
      DoomedNeverCommits(Do(s, steps[0]), steps[1..], t);
    }
  }

  /** A cancel that is set before the worker's commit section reads it keeps the
      config from ever being committed, in every continuation of the run. */
  lemma {:induction false} CancelBeforeCheckPreventsCommit(s: State, steps: seq<Step>, t: Tid)
    requires Inv(s) && Runs(s, steps)
    requires t in s.workers && s.workers[t].cancel && BeforeCommitCheck(s.workers[t].pc)
    ensures
      var r := After(s, steps);
      t in r.workers && r.workers[t].commits == 0
      && (r.workers[t].pc.Exited? ==> r.workers[t].sent == [Failed])
  {
    DoomedNeverCommits(s, steps, t);
  }

  /** CANCEL_DEPLOY is linearised against the commit: when the handler signals a
      worker, that worker has either already committed or never will. */
  lemma {:induction false} CancelIsLinearised(s: State, p: string, steps: seq<Step>)
    requires Inv(s) && Enabled(s, Cancel(p)) && Busy(s, p)
    requires Runs(Do(s, Cancel(p)), steps)
    ensures
      var t := s.registry[p];
      var r := After(Do(s, Cancel(p)), steps);
      && t in r.workers
      && (s.workers[t].commits == 1 || r.workers[t].commits == 0)
  {
    var t := s.registry[p];
    var s' := Do(s, Cancel(p));
    StepKeepsInv(s, Cancel(p));
    // The handler holds the lock, so the worker is not between check and write.
    assert !s.workers[t].pc.CommitWrite?;
    if s.workers[t].commits == 0 {
      DoomedNeverCommits(s', steps, t);
    } else {
      WorkersStay(s', steps, t);
    }
  }

  lemma {:induction false} WorkersStay(s: State, steps: seq<Step>, t: Tid)
    requires Runs(s, steps) && t in s.workers
    ensures t in After(s, steps).workers
    decreases |steps|
  {
    if steps != [] {
      WorkersStay(Do(s, steps[0]), steps[1..], t);
    }
  }

  /** A worker changes `pipeline_configs` only in its commit, holding both locks and
      past its cancel check; and it writes memory and disk alike. */
  lemma CommitWritesBoth(s: State, t: Tid, c: Choice)
    requires Inv(s) && Enabled(s, Work(t, c))
    ensures
      var r := DoWork(s, t, c);
      if r.workers[t].commits == s.workers[t].commits then r.configs == s.configs && r.persisted == s.persisted
      else
        var p := s.workers[t].cmd.pipelineId;
        && s.lock == Some(WorkerThread(t)) && s.ops == Some(WorkerThread(t))
        && !BeforeCommitCheck(s.workers[t].pc)
        && r.configs == s.configs[p := s.workers[t].cmd.config]
        && r.persisted == s.persisted[p := s.workers[t].cmd.config]
  {
    LocalCommits(s, s.workers[t], c);
  }

  /** At most one worker is downloading any given file. */
  lemma {:induction false} OneWriterPerFile(s: State, steps: seq<Step>, t: Tid, u: Tid)
    requires Init(s) && Runs(s, steps)
    ensures
      var r := After(s, steps);
      t in r.workers && u in r.workers && Downloading(r.workers[t].pc) && Downloading(r.workers[u].pc)
      && r.workers[t].cmd.modelName == r.workers[u].cmd.modelName
      ==> t == u
  {
    RunKeepsInv(s, steps);
  }

  /** A model file appears only by the rename of its own staging file, whose size
      is the declared length when the server declared one. */
  lemma TargetAppearsByRename(s: State, step: Step, name: string)
    requires Inv(s) && Enabled(s, step)
    requires !IsPartialName(name) && name !in s.fs && name in Do(s, step).fs
    ensures
      && step.Work?
      && var w := s.workers[step.t];
      && w.pc.Publishing? && w.cmd.modelName == name
      && PartialName(name) in s.fs && Do(s, step).fs[name] == s.fs[PartialName(name)]
      && (w.total == 0 || |Do(s, step).fs[name]| == w.total)
  {
    if step.Work? {
      NamesDoNotClash(s.workers[step.t].cmd.modelName, name);
      FileAppears(s.fs, s.workers[step.t], step.c, name);
      assert OwnFilesOk(s.fs, s.workers[step.t]);
    }
  }

  lemma {:induction false} FileAppears(fs: map<string, Bytes>, w: Worker, c: Choice, name: string)
    requires name != PartialName(w.cmd.modelName) && name !in fs && name in NextFiles(fs, w, c)
    ensures w.pc.Publishing? && w.cmd.modelName == name && PartialName(name) in fs
    ensures NextFiles(fs, w, c)[name] == fs[PartialName(name)]
  {
  }

  /** A published file is not rewritten by any step. */
  lemma TargetIsStable(s: State, step: Step, name: string)
    requires Inv(s) && Enabled(s, step)
    requires !IsPartialName(name) && name in s.fs && step != RemoveModel(name)
    ensures name in Do(s, step).fs && Do(s, step).fs[name] == s.fs[name]
  {
    if step.Work? {
      var w := s.workers[step.t];
      NamesDoNotClash(w.cmd.modelName, name);
      assert OwnFilesOk(s.fs, w);
      FileStays(s.fs, w, step.c, name);
    }
  }

  lemma {:induction false} FileStays(fs: map<string, Bytes>, w: Worker, c: Choice, name: string)
    requires name != PartialName(w.cmd.modelName) && name in fs
    requires w.pc.Publishing? ==> w.cmd.modelName != name
    ensures name in NextFiles(fs, w, c) && NextFiles(fs, w, c)[name] == fs[name]
  {
  }

  predicate Keeps(steps: seq<Step>, name: string) {
    forall i :: 0 <= i < |steps| ==> steps[i] != RemoveModel(name)
  }

  /** Once a file is published, and until it is removed, no worker downloads it:
      a worker that waited behind the download takes the cached file. */
  lemma {:induction false} WaitersUseTheCachedFile(s: State, steps: seq<Step>, name: string, t: Tid)
    requires Inv(s) && Runs(s, steps) && Keeps(steps, name)
    requires !IsPartialName(name) && name in s.fs
    ensures
      var r := After(s, steps);
      && name in r.fs && r.fs[name] == s.fs[name]
      && (t in r.workers && r.workers[t].cmd.modelName == name ==> !Downloading(r.workers[t].pc))
    decreases |steps|
  {
    if steps != [] {
      StepKeepsInv(s, steps[0]);
      TargetIsStable(s, steps[0], name);
      forall i | 0 <= i < |steps[1..]| ensures steps[1..][i] != RemoveModel(name) {
        assert steps[1..][i] == steps[i + 1];
      }
      WaitersUseTheCachedFile(Do(s, steps[0]), steps[1..], name, t);
    }
  }
}
