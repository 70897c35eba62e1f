/**
 How a deploy ends (src/link/app/runtime.py:588-873): from the steps of a run alone, whether it
 fails; what it has done when it completes; and that it can complete.
 */
module DeployOutcome {
  import opened Common
  import opened DeployProtocol

  // ------------------------------------------ how a deploy ends, told from its run

  /** What the steps of a run say of one deploy: whether it was signalled, the length the server
      declared, the bytes received, and whether one of the things that fail a deploy has happened. */
  datatype Ledger = Ledger(signalled: bool, declared: nat, received: nat, failed: bool)

  const BLANK := Ledger(false, 0, 0, false)

  /** The step sets the cancel event of the worker: a CANCEL_DEPLOY for its pipeline while it is
      registered and alive, or shutdown. */
  predicate Signals(s: State, step: Step, t: Tid) {
    step == ShutdownSignal(t) || (step.Cancel? && Busy(s, step.pipelineId) && s.registry[step.pipelineId] == t)
  }

  /** Where a set cancel event fails the deploy: on entering the download lock, before the rename and
      before the commit, besides at each chunk. */
  predicate ReadsCancel(pc: Pc) { pc.Entered? || pc.LastCheck? || pc.CommitCheck? }

  /** Where an exception fails the deploy; in the clean-ups it does not. */
  predicate RaiseIsFatal(pc: Pc) { pc.Starting? || pc.Probing? || pc.Opening? || pc.Streaming? || pc.Publishing? }

  function NextLedger(l: Ledger, s: State, step: Step, t: Tid): (r: Ledger)
    requires Enabled(s, step)
  {
    if Signals(s, step, t) then l.(signalled := true)
    else if step.Deploy? && step.t == t then l.(failed := !step.starts)
    else if step.Work? && step.t == t then
      match step.c
      case Headers(total) => l.(declared := total)
      case Chunk(data) => l.(received := l.received + |data|, failed := l.failed || l.signalled)
      case EndOfBody => l.(failed := l.failed || (l.declared != 0 && l.declared != l.received))
      case Raise => l.(failed := l.failed || RaiseIsFatal(s.workers[t].pc))
      case Go => l.(failed := l.failed || (l.signalled && ReadsCancel(s.workers[t].pc)))
    else l
  }

  function LedgerOf(l: Ledger, s: State, steps: seq<Step>, t: Tid): (r: Ledger)
    requires Runs(s, steps)
    decreases |steps|
  {
    if steps == [] then l else LedgerOf(NextLedger(l, s, steps[0], t), Do(s, steps[0]), steps[1..], t)
  }

  /** The worker is on its way to a report of failure, or has sent it. */
  predicate Failing(w: Worker) {
    || w.pc.Caught? || w.pc.Breaking? || w.pc.Abandoning? || w.pc == Leaving(ToCleanup) || w.pc == Leaving(ToError)
    || w.pc == DropLock(false) || w.pc == DropOps(false) || w.pc == Reporting(Failed)
    || (w.pc.Measuring? && w.total != 0 && w.done != w.total)
    || ((w.pc.Cleanup? || w.pc.Exited?) && w.sent == [Failed])
  }

  predicate LedgerOk(l: Ledger, w: Worker) {
    && w.cancel == l.signalled && (l.failed <==> Failing(w))
    && (BeforeBody(w.pc) ==> l.declared == 0 && l.received == 0)
    && (w.pc.Streaming? || w.pc.Measuring? ==> w.total == l.declared && w.done == l.received)
  }

  predicate BeforeBody(pc: Pc) {
    pc.Starting? || pc.Queued? || pc.Entered? || pc.Probing? || pc.Clearing? || pc.Opening?
  }

  ghost predicate LedgerInv(l: Ledger, s: State, t: Tid) {
    if t in s.workers then LedgerOk(l, s.workers[t]) else l.(failed := false) == BLANK
  }

  // The next step of a worker fails the deploy as the ledger says.
  ghost predicate FailsAs(l: Ledger, s: State, t: Tid, c: Choice)
    requires t in s.workers && WorkEnabled(s, s.workers[t], c)
  {
    Failing(WorkLocal(s, s.workers[t], c)) <==> NextLedger(l, s, Work(t, c), t).failed
  }

  lemma FailsInDownload(l: Ledger, s: State, t: Tid, c: Choice)
    requires t in s.workers && WorkEnabled(s, s.workers[t], c) && WorkerOk(s.workers[t]) && LedgerOk(l, s.workers[t])
    requires BeforeBody(s.workers[t].pc) || Downloading(s.workers[t].pc)
    ensures FailsAs(l, s, t, c)
  {
  }

  lemma FailsAfterDownload(l: Ledger, s: State, t: Tid, c: Choice)
    requires t in s.workers && WorkEnabled(s, s.workers[t], c) && WorkerOk(s.workers[t]) && LedgerOk(l, s.workers[t])
    requires !BeforeBody(s.workers[t].pc) && !Downloading(s.workers[t].pc)
    ensures FailsAs(l, s, t, c)
  {
    var w := s.workers[t];
    assert w.sent == [] ==> w.sent + [Failed] == [Failed] && w.sent + [Completed] == [Completed];
  }

  lemma LedgerWork(l: Ledger, s: State, t: Tid, c: Choice)
    requires t in s.workers && WorkEnabled(s, s.workers[t], c) && WorkerOk(s.workers[t]) && LedgerOk(l, s.workers[t])
    ensures LedgerOk(NextLedger(l, s, Work(t, c), t), WorkLocal(s, s.workers[t], c))
  {
    LocalStepLocks(s, s.workers[t], c);
    if BeforeBody(s.workers[t].pc) || Downloading(s.workers[t].pc) {
      FailsInDownload(l, s, t, c);
    } else {
      FailsAfterDownload(l, s, t, c);
    }
  }

  // What a step leaves of a worker that is not the one it moves.
  lemma OthersStep(s: State, step: Step, t: Tid)
    requires Enabled(s, step) && t in s.workers && !(step.Work? && step.t == t)
    ensures t in Do(s, step).workers
    ensures Do(s, step).workers[t] == if Signals(s, step, t) then s.workers[t].(cancel := true) else s.workers[t]
  {
  }

  // A step that brings a worker into being is its deploy.
  lemma NewWorker(s: State, step: Step, t: Tid)
    requires Enabled(s, step) && t !in s.workers && t in Do(s, step).workers
    ensures step.Deploy? && step.t == t && !Signals(s, step, t) && Do(s, step).workers[t].cmd == step.cmd && Accepted(step.cmd)
    ensures var w := Do(s, step).workers[t];
            !w.cancel && w.commits == 0 && if step.starts then w.pc.Starting? else w.pc.Exited? && w.sent == [Failed]
  {
  }

  lemma AbsentIsNotSignalled(s: State, step: Step, t: Tid)
    requires Inv(s) && Enabled(s, step) && t !in s.workers
    ensures !Signals(s, step, t)
  {
    assert RegistryNamesLiveWorkers(s);
  }

  lemma LedgerStep(l: Ledger, s: State, step: Step, t: Tid)
    requires Inv(s) && Enabled(s, step) && LedgerInv(l, s, t)
    ensures LedgerInv(NextLedger(l, s, step, t), Do(s, step), t)
  {
    if t !in s.workers {
      if t in Do(s, step).workers {
        NewWorker(s, step, t);
      } else {
        AbsentIsNotSignalled(s, step, t);
      }
    } else if step.Work? && step.t == t {
      assert WorkerOk(s.workers[t]);
      LedgerWork(l, s, t, step.c);
    } else {
      OthersStep(s, step, t);
    }
  }

  lemma {:induction false} LedgerRun(l: Ledger, s: State, steps: seq<Step>, t: Tid)
    requires Inv(s) && Runs(s, steps) && LedgerInv(l, s, t)
    ensures Inv(After(s, steps)) && LedgerInv(LedgerOf(l, s, steps, t), After(s, steps), t)
    decreases |steps|
  {
    if steps != [] {
      StepKeepsInv(s, steps[0]);
      LedgerStep(l, s, steps[0], t);
      LedgerRun(NextLedger(l, s, steps[0], t), Do(s, steps[0]), steps[1..], t);
    }
  }

  /** A deploy that has ended reported failure if and only if its thread could not be created, it read
      its cancel event after it was set, it raised outside a clean-up, or its body ended short of the
      declared length. In every other case it committed, once, and reported success. */
  lemma {:induction false} DeployFailsIff(s: State, steps: seq<Step>, t: Tid)
    requires Init(s) && Runs(s, steps)
    requires t in After(s, steps).workers && After(s, steps).workers[t].pc.Exited?
    ensures After(s, steps).workers[t].sent == [if LedgerOf(BLANK, s, steps, t).failed then Failed else Completed]
    ensures After(s, steps).workers[t].commits == if LedgerOf(BLANK, s, steps, t).failed then 0 else 1
  {
    LedgerRun(BLANK, s, steps, t);
    assert WorkerOk(After(s, steps).workers[t]);
  }

  // --------------------------------------------- what a completed deploy has done

  lemma {:induction false} RunPrefix(s: State, steps: seq<Step>, i: nat)
    requires steps != [] && Enabled(s, steps[0]) && i <= |steps[1..]| && Runs(Do(s, steps[0]), steps[1..][..i])
    ensures Runs(s, steps[..i + 1]) && After(s, steps[..i + 1]) == After(Do(s, steps[0]), steps[1..][..i])
  {
    assert steps[..i + 1][1..] == steps[1..][..i];
  }

  lemma {:induction false} RunCons(s: State, step: Step, rest: seq<Step>)
    requires Enabled(s, step) && Runs(Do(s, step), rest)
    ensures Runs(s, [step] + rest) && After(s, [step] + rest) == After(Do(s, step), rest)
  {
    assert ([step] + rest)[1..] == rest;
  }

  lemma {:induction false} FirstStep(s: State, steps: seq<Step>)
    requires steps != [] && Enabled(s, steps[0])
    ensures Runs(s, steps[..1]) && After(s, steps[..1]) == Do(s, steps[0])
  {
    assert steps[..1][1..] == [];
  }

  lemma CommandStep(s: State, step: Step, t: Tid)
    requires Enabled(s, step) && t in s.workers
    ensures t in Do(s, step).workers && Do(s, step).workers[t].cmd == s.workers[t].cmd
  {
    if step.Work? && step.t == t {
      LocalStepLocks(s, s.workers[t], step.c);
    } else {
      OthersStep(s, step, t);
    }
  }

  lemma {:induction false} CommandStays(s: State, steps: seq<Step>, t: Tid)
    requires Runs(s, steps) && t in s.workers
    ensures t in After(s, steps).workers && After(s, steps).workers[t].cmd == s.workers[t].cmd
    decreases |steps|
  {
    if steps != [] {
      CommandStep(s, steps[0], t);
      CommandStays(Do(s, steps[0]), steps[1..], t);
    }
  }

  lemma Commits(s: State, step: Step, t: Tid)
    requires Inv(s) && Enabled(s, step) && (t in s.workers ==> s.workers[t].commits == 0)
    requires t in Do(s, step).workers && Do(s, step).workers[t].commits != 0
    ensures
      var r := Do(s, step);
      var cmd := r.workers[t].cmd;
      && cmd.pipelineId in r.configs && r.configs[cmd.pipelineId] == cmd.config
      && cmd.pipelineId in r.persisted && r.persisted[cmd.pipelineId] == cmd.config
  {
    if t !in s.workers {
      NewWorker(s, step, t);
    } else if step.Work? && step.t == t {
      CommitWritesBoth(s, t, step.c);
      LocalStepLocks(s, s.workers[t], step.c);
    } else {
      OthersStep(s, step, t);
    }
  }

  /** A deploy that committed: after that step memory and disk both held its config. */
  lemma {:induction false} CompletedWasCommitted(s: State, steps: seq<Step>, t: Tid) returns (i: nat)
    requires Inv(s) && Runs(s, steps) && (t in s.workers ==> s.workers[t].commits == 0)
    requires t in After(s, steps).workers && After(s, steps).workers[t].commits == 1
    ensures 0 < i <= |steps| && Runs(s, steps[..i])
    ensures
      var cmd := After(s, steps).workers[t].cmd;
      var r := After(s, steps[..i]);
      && cmd.pipelineId in r.configs && r.configs[cmd.pipelineId] == cmd.config
      && cmd.pipelineId in r.persisted && r.persisted[cmd.pipelineId] == cmd.config
    decreases |steps|
  {
    var next := Do(s, steps[0]);
    StepKeepsInv(s, steps[0]);
    if t in next.workers && next.workers[t].commits != 0 {
      FirstStep(s, steps);
      CommandStays(next, steps[1..], t);
      Commits(s, steps[0], t);
      i := 1;
    } else {
      var j := CompletedWasCommitted(next, steps[1..], t);
      RunPrefix(s, steps, j);
      i := j + 1;
    }
  }

  /** The worker has not got past its download yet. */
  predicate WithoutFile(w: Worker) {
    w.commits == 0 && w.pc != Leaving(ToCommit) && !w.pc.WantOps? && !HoldsOps(w.pc)
  }

  /** A deploy that committed had its model file: at an earlier point of the run, while it held the
      download lock of the file, the file was there. */
  lemma {:induction false} CompletedHadItsFile(s: State, steps: seq<Step>, t: Tid) returns (i: nat)
    requires Inv(s) && Runs(s, steps) && (t in s.workers ==> WithoutFile(s.workers[t]))
    requires t in After(s, steps).workers && After(s, steps).workers[t].commits == 1
    ensures 0 < i <= |steps| && Runs(s, steps[..i])
    ensures
      var name := After(s, steps).workers[t].cmd.modelName;
      var r := After(s, steps[..i]);
      TargetExists(r.fs, name) && name in r.downloadLocks && r.downloadLocks[name] == t
    decreases |steps|
  {
    var next := Do(s, steps[0]);
    StepKeepsInv(s, steps[0]);
    if t in next.workers && !WithoutFile(next.workers[t]) {
      FirstStep(s, steps);
      CommandStays(next, steps[1..], t);
      GetsItsFile(s, steps[0], t);
      i := 1;
    } else {
      var j := CompletedHadItsFile(next, steps[1..], t);
      RunPrefix(s, steps, j);
      i := j + 1;
    }
  }

  lemma OnlyItsOwnSteps(s: State, step: Step, t: Tid)
    requires Enabled(s, step) && (t in s.workers ==> WithoutFile(s.workers[t])) && !(t in s.workers && step.Work? && step.t == t)
    ensures t in Do(s, step).workers ==> WithoutFile(Do(s, step).workers[t])
  {
    if t !in s.workers {
      if t in Do(s, step).workers {
        NewWorker(s, step, t);
      }
    } else {
      OthersStep(s, step, t);
    }
  }

  lemma GetsItsFile(s: State, step: Step, t: Tid)
    requires Inv(s) && Enabled(s, step) && (t in s.workers ==> WithoutFile(s.workers[t]))
    requires t in Do(s, step).workers && !WithoutFile(Do(s, step).workers[t])
    ensures
      var r := Do(s, step);
      var name := r.workers[t].cmd.modelName;
      TargetExists(r.fs, name) && name in r.downloadLocks && r.downloadLocks[name] == t
  {
    if !(t in s.workers && step.Work? && step.t == t) {
      OnlyItsOwnSteps(s, step, t);
    } else {
      LocalStepLocks(s, s.workers[t], step.c);
      assert OwnFilesOk(s.fs, s.workers[t]) && DownloadLocksMatch(s);
      WorkGetsItsFile(s, t, step.c);
    }
  }

  lemma WorkGetsItsFile(s: State, t: Tid, c: Choice)
    requires Enabled(s, Work(t, c)) && WithoutFile(s.workers[t]) && OwnFilesOk(s.fs, s.workers[t])
    requires HoldsDownload(s.workers[t].pc) ==>
               s.workers[t].cmd.modelName in s.downloadLocks && s.downloadLocks[s.workers[t].cmd.modelName] == t
    requires !WithoutFile(WorkLocal(s, s.workers[t], c))
    ensures
      var r := DoWork(s, t, c);
      var name := s.workers[t].cmd.modelName;
      TargetExists(r.fs, name) && name in r.downloadLocks && r.downloadLocks[name] == t
  {
    FileIsThere(s, s.workers[t], c);
  }

  lemma FileIsThere(s: State, w: Worker, c: Choice)
    requires WorkEnabled(s, w, c) && OwnFilesOk(s.fs, w) && WithoutFile(w) && !WithoutFile(WorkLocal(s, w, c))
    ensures (w.pc.Probing? || w.pc.Publishing?) && TargetExists(NextFiles(s.fs, w, c), w.cmd.modelName)
  {
    assert |PartialName(w.cmd.modelName)| > |w.cmd.modelName|;
  }

  // ------------------------------------------------------- a deploy can succeed

  // How far a worker still has to go.
  function Distance(pc: Pc): (n: nat) {
    match pc
    case Starting => 22
    case Queued => 21
    case Entered => 20
    case Probing => 19
    case Clearing => 18
    case Opening => 17
    case Streaming => 16
    case Caught => 15
    case Measuring => 14
    case LastCheck => 13
    case Publishing => 12
    case Abandoning(_) => 11
    case Breaking => 11
    case Leaving(_) => 10
    case WantOps => 9
    case WantLock => 8
    case CommitCheck => 7
    case CommitWrite => 6
    case DropLock(_) => 5
    case DropOps(_) => 4
    case Reporting(_) => 3
    case Cleanup => 2
    case Exited => 0
  }

  // A choice under which nothing fails.
  function Smooth(pc: Pc): (c: Choice) { if pc.Opening? then Headers(0) else if pc.Streaming? then EndOfBody else Go }

  /** No other thread is in the worker's way: every lock it does not hold is free. */
  predicate Unhindered(s: State, t: Tid) {
    t in s.workers
    && (HoldsDownload(s.workers[t].pc) || s.workers[t].cmd.modelName !in s.downloadLocks)
    && (HoldsOps(s.workers[t].pc) || s.ops.None?) && (HoldsLock(s.workers[t].pc) || s.lock.None?)
  }

  /** Nothing has failed so far, nor will by itself. */
  predicate Sound(w: Worker) { !w.cancel && !Failing(w) && (w.pc.Streaming? ==> w.total == 0) }

  lemma SmoothLocal(s: State, w: Worker)
    requires WorkEnabled(s, w, Smooth(w.pc)) && WorkerOk(w)
    ensures Distance(WorkLocal(s, w, Smooth(w.pc)).pc) < Distance(w.pc)
    ensures Sound(w) ==> Sound(WorkLocal(s, w, Smooth(w.pc)))
  {
    assert w.sent == [] ==> w.sent + [Completed] == [Completed];
  }

  lemma SmoothEnabled(s: State, t: Tid)
    requires DownloadLocksMatch(s) && Unhindered(s, t) && !s.workers[t].pc.Exited?
    ensures Enabled(s, Work(t, Smooth(s.workers[t].pc)))
  {
  }

  lemma StaysUnhindered(s: State, t: Tid, r: State)
    requires Unhindered(s, t) && WorkEffect(s, t, r) && DownloadLocksMatch(s)
    ensures Unhindered(r, t)
  {
  }

  lemma SmoothStep(s: State, t: Tid)
    requires Inv(s) && Unhindered(s, t) && Enabled(s, Work(t, Smooth(s.workers[t].pc)))
    ensures
      var w := s.workers[t];
      var r := DoWork(s, t, Smooth(w.pc));
      && Unhindered(r, t) && r.workers[t].cmd == w.cmd
      && Distance(r.workers[t].pc) < Distance(w.pc) && (Sound(w) ==> Sound(r.workers[t]))
  {
    var w := s.workers[t];
    assert WorkerOk(w);
    SmoothLocal(s, w);
    WorkHasEffect(s, t, Smooth(w.pc));
    StaysUnhindered(s, t, DoWork(s, t, Smooth(w.pc)));
  }

  lemma NextSmooth(s: State, t: Tid) returns (step: Step)
    requires Inv(s) && Unhindered(s, t) && !s.workers[t].pc.Exited?
    ensures Enabled(s, step) && step == Work(t, Smooth(s.workers[t].pc))
    ensures var w, r := s.workers[t], Do(s, step);
            && Inv(r) && Unhindered(r, t) && r.workers[t].cmd == w.cmd
            && Distance(r.workers[t].pc) < Distance(w.pc) && (Sound(w) ==> Sound(r.workers[t]))
  {
    step := Work(t, Smooth(s.workers[t].pc));
    SmoothEnabled(s, t);
    SmoothStep(s, t);
    WorkKeepsInv(s, t, step.c);
  }

  predicate OwnSteps(steps: seq<Step>, t: Tid) { forall i :: 0 <= i < |steps| ==> steps[i].Work? && steps[i].t == t }

  lemma {:induction false} OwnCons(step: Step, rest: seq<Step>, t: Tid)
    requires step.Work? && step.t == t && OwnSteps(rest, t)
    ensures OwnSteps([step] + rest, t)
  {
  }

  lemma SoundExit(s: State, t: Tid)
    requires Inv(s) && t in s.workers && s.workers[t].pc.Exited? && Sound(s.workers[t])
    ensures s.workers[t].sent == [Completed]
  {
    assert WorkerOk(s.workers[t]);
  }

  /** Left alone, a worker ends: by its own steps, and with success if nothing has failed so far. */
  lemma {:induction false} WorkerCanFinish(s: State, t: Tid) returns (steps: seq<Step>)
    requires Inv(s) && Unhindered(s, t)
    ensures Runs(s, steps) && OwnSteps(steps, t)
    ensures
      var w := After(s, steps).workers;
      t in w && w[t].pc.Exited? && w[t].cmd == s.workers[t].cmd && (Sound(s.workers[t]) ==> w[t].sent == [Completed])
    decreases Distance(s.workers[t].pc)
  {
    steps := [];
    if !s.workers[t].pc.Exited? {
      var step := NextSmooth(s, t);
      var rest := WorkerCanFinish(Do(s, step), t);
      steps := [step] + rest;
      RunCons(s, step, rest);
      OwnCons(step, rest, t);
    } else if Sound(s.workers[t]) {
      SoundExit(s, t);
    }
  }

  lemma {:induction false} TakesUp(s: State, cmd: Command, t: Tid) returns (begun: State)
    requires Inv(s) && t !in s.workers && s.lock.None? && s.ops.None? && cmd.modelName !in s.downloadLocks
    requires forall u :: u in s.workers && s.workers[u].cmd.pipelineId == cmd.pipelineId ==> s.workers[u].pc.Exited?
    requires Accepted(cmd) && !IsPartialName(cmd.modelName)
    ensures Enabled(s, Deploy(cmd, t, true)) && begun == Do(s, Deploy(cmd, t, true))
    ensures Inv(begun) && Unhindered(begun, t) && begun.workers[t].cmd == cmd && Sound(begun.workers[t])
  {
    begun := Do(s, Deploy(cmd, t, true));
    assert RegistryNamesLiveWorkers(s) && !Busy(s, cmd.pipelineId);
    assert begun.workers[t] == Worker(cmd, Starting, false, 0, 0, [], 0);
    StepKeepsInv(s, Deploy(cmd, t, true));
  }

  lemma CompletedCommits(s: State, t: Tid)
    requires Inv(s) && t in s.workers && s.workers[t].sent == [Completed]
    ensures s.workers[t].commits == 1
  {
    assert WorkerOk(s.workers[t]);
  }

  /** From every reachable state in which the locks are free and no worker of the pipeline is alive, a
      deploy whose ids agree and whose name is one plain component can be taken up and completed. */
  lemma {:induction false} DeployCanSucceed(s: State, cmd: Command, t: Tid) returns (steps: seq<Step>)
    requires Inv(s) && t !in s.workers && s.lock.None? && s.ops.None? && cmd.modelName !in s.downloadLocks
    requires forall u :: u in s.workers && s.workers[u].cmd.pipelineId == cmd.pipelineId ==> s.workers[u].pc.Exited?
    requires cmd.configId == cmd.pipelineId && !(|cmd.modelName| >= 8 && cmd.modelName[|cmd.modelName| - 8..] == ".partial")
    requires cmd.modelName != "." && cmd.modelName != ".."
    requires '/' !in cmd.modelName && '\\' !in cmd.modelName && '\0' !in cmd.modelName
    ensures Runs(s, steps) && steps != [] && steps[0] == Deploy(cmd, t, true)
    ensures
      var w := After(s, steps).workers;
      t in w && w[t].cmd == cmd && w[t].pc.Exited? && w[t].sent == [Completed] && w[t].commits == 1
  {
    var begun := TakesUp(s, cmd, t);
    var rest := WorkerCanFinish(begun, t);
    steps := [Deploy(cmd, t, true)] + rest;
    RunCons(s, Deploy(cmd, t, true), rest);
    RunKeepsInv(begun, rest);
    CompletedCommits(After(begun, rest), t);
  }

  /** Every worker was asked for by a command whose ids agree and whose name is empty or one plain component. */
  lemma {:induction false} EveryWorkerIsProper(s: State, steps: seq<Step>, t: Tid)
    requires Init(s) && Runs(s, steps) && t in After(s, steps).workers
    ensures
      var cmd := After(s, steps).workers[t].cmd;
      && cmd.configId == cmd.pipelineId && cmd.modelName != "." && cmd.modelName != ".."
      && '/' !in cmd.modelName && '\\' !in cmd.modelName && '\0' !in cmd.modelName
  {
    AcceptedAlong(s, steps, t);
  }

  lemma {:induction false} AcceptedAlong(s: State, steps: seq<Step>, t: Tid)
    requires Runs(s, steps) && (t in s.workers ==> Accepted(s.workers[t].cmd))
    ensures t in After(s, steps).workers ==> Accepted(After(s, steps).workers[t].cmd)
    decreases |steps|
  {
    if steps != [] {
      if t in s.workers {
        CommandStep(s, steps[0], t);
      } else if t in Do(s, steps[0]).workers {
        NewWorker(s, steps[0], t);
      }
      AcceptedAlong(Do(s, steps[0]), steps[1..], t);
    }
  }

  // ------------------------------------------------ a deploy that downloads its file

  /** The command is proper, nobody is in its way, and its file is not there. */
  predicate Solo(s: State, cmd: Command, t: Tid) {
    && t !in s.workers && s.lock.None? && s.ops.None? && cmd.modelName !in s.downloadLocks
    && !Busy(s, cmd.pipelineId) && Accepted(cmd) && !IsPartialName(cmd.modelName)
    && cmd.modelName != "" && cmd.modelName !in s.fs
  }

  /** What is deployed, and what the server sends for it: a declared length, or none, and the body. */
  datatype Job = Job(cmd: Command, t: Tid, total: nat, data: Bytes)

  const LAST := 20

  // Where the worker is before its action number `k`.
  function PcAt(k: nat): (pc: Pc) {
    if k == 0 then Starting
    else if k == 1 then Queued
    else if k == 2 then Entered
    else if k == 3 then Probing
    else if k == 4 then Clearing
    else if k == 5 then Opening
    else if k == 6 || k == 7 then Streaming
    else if k == 8 then Measuring
    else if k == 9 then LastCheck
    else if k == 10 then Publishing
    else if k == 11 then Leaving(ToCommit)
    else if k == 12 then WantOps
    else if k == 13 then WantLock
    else if k == 14 then CommitCheck
    else if k == 15 then CommitWrite
    else if k == 16 then DropLock(true)
    else if k == 17 then DropOps(true)
    else if k == 18 then Reporting(Completed)
    else if k == 19 then Cleanup
    else Exited
  }

  function ChoiceAt(j: Job, k: nat): (c: Choice) {
    if k == 5 then Headers(j.total) else if k == 6 then Chunk(j.data) else if k == 7 then EndOfBody else Go
  }

  function ActionAt(j: Job, k: nat): (step: Step) { Work(j.t, ChoiceAt(j, k)) }

  function WorkerAt(j: Job, k: nat): (w: Worker) {
    Worker(j.cmd, PcAt(k), false, if k >= 6 then j.total else 0, if k >= 7 then |j.data| else 0,
           if k >= 19 then [Completed] else [], if k >= 16 then 1 else 0)
  }

  function FilesAt(fs: map<string, Bytes>, j: Job, k: nat): (r: map<string, Bytes>) {
    var p := j.cmd.modelName + ".partial";
    if k <= 4 then fs
    else if k == 5 then fs - {p}
    else if k <= 10 then (fs - {p})[p := if k == 6 then [] else j.data]
    else (fs - {p})[j.cmd.modelName := j.data]
  }

  /** The whole state before the worker's action number `k`. */
  function StateAt(s: State, j: Job, k: nat): (r: State)
    requires k <= LAST
  {
    var cmd, me := j.cmd, Some(WorkerThread(j.t));
    State(
      FilesAt(s.fs, j, k),
      if k >= 16 then s.configs[cmd.pipelineId := cmd.config] else s.configs,
      if k >= 16 then s.persisted[cmd.pipelineId := cmd.config] else s.persisted,
      if k == LAST then s.registry - {cmd.pipelineId} else s.registry[cmd.pipelineId := j.t],
      s.workers[j.t := WorkerAt(j, k)],
      if 2 <= k <= 11 then s.downloadLocks[cmd.modelName := j.t] else s.downloadLocks,
      if 13 <= k <= 17 then me else None,
      if 14 <= k <= 16 then me else None,
      s.signalled)
  }

  // One action takes it from each of these states to the next.
  ghost predicate Goes(s: State, j: Job, k: nat) {
    k < LAST && Enabled(StateAt(s, j, k), ActionAt(j, k)) && Do(StateAt(s, j, k), ActionAt(j, k)) == StateAt(s, j, k + 1)
  }

  predicate Ready(s: State, j: Job) { Solo(s, j.cmd, j.t) && (j.total == 0 || j.total == |j.data|) }

  lemma WorkerGoes(s: State, r: State, j: Job, k: nat)
    requires Ready(s, j) && k < LAST && r.fs == FilesAt(s.fs, j, k)
    requires k == 1 ==> j.cmd.modelName !in r.downloadLocks
    requires (k == 12 ==> r.ops.None?) && (k == 13 || k == 19 ==> r.lock.None?)
    ensures WorkEnabled(r, WorkerAt(j, k), ChoiceAt(j, k))
    ensures WorkLocal(r, WorkerAt(j, k), ChoiceAt(j, k)) == WorkerAt(j, k + 1)
  {
    assert [] + [Completed] == [Completed];
  }

  lemma FilesGo(fs: map<string, Bytes>, j: Job, k: nat)
    requires k < LAST && j.cmd.modelName !in fs
    ensures NextFiles(FilesAt(fs, j, k), WorkerAt(j, k), ChoiceAt(j, k)) == FilesAt(fs, j, k + 1)
  {
    var name, p := j.cmd.modelName, PartialName(j.cmd.modelName);
    assert |p| > |name| && [] + j.data == j.data;
    if k == 6 {
      assert (fs - {p})[p := []][p := j.data] == (fs - {p})[p := j.data];
    }
    if k == 10 {
      assert (fs - {p})[p := j.data][name := j.data] - {p} == (fs - {p})[name := j.data];
    }
  }

  lemma LocksGo(s: State, j: Job, k: nat)
    requires Ready(s, j) && k < LAST
    ensures
      var r, n, w := StateAt(s, j, k), StateAt(s, j, k + 1), WorkerAt(j, k);
      && NextDownloadLocks(r.downloadLocks, j.t, w) == n.downloadLocks
      && NextOps(r.ops, j.t, w.pc) == n.ops && NextLock(r.lock, j.t, w.pc) == n.lock
  {
    assert s.downloadLocks[j.cmd.modelName := j.t] - {j.cmd.modelName} == s.downloadLocks;
  }

  lemma ConfigsGo(s: State, j: Job, k: nat)
    requires Ready(s, j) && k < LAST
    ensures
      var r, n, w := StateAt(s, j, k), StateAt(s, j, k + 1), WorkerAt(j, k);
      && Commit(r.configs, w) == n.configs && Commit(r.persisted, w) == n.persisted && NextRegistry(r, w) == n.registry
  {
    assert s.registry[j.cmd.pipelineId := j.t] - {j.cmd.pipelineId} == s.registry - {j.cmd.pipelineId};
  }

  lemma GoesOn(s: State, j: Job, k: nat)
    requires Ready(s, j) && k < LAST
    ensures Goes(s, j, k)
  {
    WorkerGoes(s, StateAt(s, j, k), j, k);
    FilesGo(s.fs, j, k);
    LocksGo(s, j, k);
    ConfigsGo(s, j, k);
    assert s.workers[j.t := WorkerAt(j, k)][j.t := WorkerAt(j, k + 1)] == s.workers[j.t := WorkerAt(j, k + 1)];
  }

  lemma {:induction false} GoesThrough(s: State, j: Job, k: nat) returns (steps: seq<Step>)
    requires Ready(s, j) && k <= LAST
    ensures Runs(StateAt(s, j, k), steps) && After(StateAt(s, j, k), steps) == StateAt(s, j, LAST)
    decreases LAST - k
  {
    steps := [];
    if k < LAST {
      GoesOn(s, j, k);
      var rest := GoesThrough(s, j, k + 1);
      steps := [ActionAt(j, k)] + rest;
      RunCons(StateAt(s, j, k), ActionAt(j, k), rest);
    }
  }

  /** A deploy that nobody disturbs, of a file that is not there: the file is what the server sent, no staging file is
      left, memory and disk hold the config, the report is success, and registration and locks are given back. */
  lemma {:induction false} DeployDelivers(s: State, cmd: Command, t: Tid, total: nat, data: Bytes) returns (steps: seq<Step>)
    requires Solo(s, cmd, t) && (total == 0 || total == |data|)
    ensures Runs(s, steps) && steps != [] && steps[0] == Deploy(cmd, t, true)
    ensures After(s, steps) ==
            s.(fs := (s.fs - {cmd.modelName + ".partial"})[cmd.modelName := data],
               configs := s.configs[cmd.pipelineId := cmd.config],
               persisted := s.persisted[cmd.pipelineId := cmd.config],
               registry := s.registry - {cmd.pipelineId},
               workers := s.workers[t := Worker(cmd, Exited, false, total, |data|, [Completed], 1)])
  {
    var j := Job(cmd, t, total, data);
    assert Do(s, Deploy(cmd, t, true)) == StateAt(s, j, 0);
    var rest := GoesThrough(s, j, 0);
    steps := [Deploy(cmd, t, true)] + rest;
    RunCons(s, Deploy(cmd, t, true), rest);
  }

  // ------------------------------------------------ what can happen on the way

  /** Outside the clean-ups an exception fails the deploy from then on; in a clean-up it changes nothing of the
      outcome. Every one of these actions can raise. */
  lemma {:induction false} EveryActionCanRaise(s: State, t: Tid)
    requires Inv(s) && t in s.workers
    ensures RaiseIsFatal(s.workers[t].pc) ==>
              && Enabled(s, Work(t, Raise)) && Failing(Do(s, Work(t, Raise)).workers[t]) && Do(s, Work(t, Raise)).fs == s.fs
    ensures s.workers[t].pc.Clearing? || s.workers[t].pc.Abandoning? || s.workers[t].pc.Breaking? ==>
              && Enabled(s, Work(t, Raise)) && Enabled(s, Work(t, Go))
              && Do(s, Work(t, Raise)).workers == Do(s, Work(t, Go)).workers && Do(s, Work(t, Raise)).fs == s.fs
  {
  }

  /** A download that is cancelled or breaks off writes nothing more, then removes its staging file, if that can be
      removed, and reports failure; one that is cancelled before it has begun leaves the files alone. */
  lemma {:induction false} FailedDownloadCleansUp(s: State, t: Tid, c: Choice)
    requires Inv(s) && Enabled(s, Work(t, c))
    requires var pc := Do(s, Work(t, c)).workers[t].pc; pc.Abandoning? || pc.Breaking?
    ensures
      var r := Do(s, Work(t, c));
      var partialFile := s.workers[t].cmd.modelName + ".partial";
      && r.fs == s.fs && Enabled(r, Work(t, Go))
      && var after := Do(r, Work(t, Go));
         && after.fs == (if s.workers[t].pc.Entered? then s.fs else s.fs - {partialFile})
         && after.workers[t].sent == [Failed] && after.workers[t].pc == Leaving(ToCleanup)
  {
    assert WorkerOk(s.workers[t]);
    BreaksOff(s, s.workers[t], c);
    CleansUp(Do(s, Work(t, c)), WorkLocal(s, s.workers[t], c));
  }

  lemma BreaksOff(s: State, w: Worker, c: Choice)
    requires WorkEnabled(s, w, c) && WorkerOk(w) && (WorkLocal(s, w, c).pc.Abandoning? || WorkLocal(s, w, c).pc.Breaking?)
    ensures
      var next := WorkLocal(s, w, c);
      && NextFiles(s.fs, w, c) == s.fs && next.cmd == w.cmd && next.sent == []
      && (next.pc == Abandoning(false) <==> w.pc.Entered?)
  {
  }

  lemma CleansUp(s: State, w: Worker)
    requires (w.pc.Abandoning? || w.pc.Breaking?) && w.sent == []
    ensures WorkEnabled(s, w, Go) && WorkLocal(s, w, Go) == w.(pc := Leaving(ToCleanup), sent := [Failed])
    ensures NextFiles(s.fs, w, Go) == if w.pc == Abandoning(false) then s.fs else s.fs - {w.cmd.modelName + ".partial"}
  {
    assert [] + [Failed] == [Failed];
  }

  /** Any other thread can take both locks when they are free, store and persist what it likes, and let go. */
  lemma {:induction false} OthersCanWrite(s: State, configs: map<string, string>, persisted: map<string, string>)
    requires s.ops.None? && s.lock.None?
    ensures
      var steps := [OtherTakesOps, OtherTakesLock, OtherWrites(configs, persisted), OtherDropsLock, OtherDropsOps];
      Runs(s, steps) && After(s, steps) == s.(configs := configs, persisted := persisted)
  {
    var s1 := Do(s, OtherTakesOps);
    var s2 := Do(s1, OtherTakesLock);
    var s3 := Do(s2, OtherWrites(configs, persisted));
    var s4 := Do(s3, OtherDropsLock);
    RunCons(s4, OtherDropsOps, []);
    RunCons(s3, OtherDropsLock, [OtherDropsOps] + []);
    RunCons(s2, OtherWrites(configs, persisted), [OtherDropsLock] + ([OtherDropsOps] + []));
    var last := [OtherWrites(configs, persisted)] + ([OtherDropsLock] + ([OtherDropsOps] + []));
    RunCons(s1, OtherTakesLock, last);
    RunCons(s, OtherTakesOps, [OtherTakesLock] + last);
    assert [OtherTakesOps] + ([OtherTakesLock] + last)
        == [OtherTakesOps, OtherTakesLock, OtherWrites(configs, persisted), OtherDropsLock, OtherDropsOps];
  }

  /** Shutdown can signal every worker that is still alive, and touches nothing else of it. */
  lemma {:induction false} ShutdownReachesEveryWorker(s: State, t: Tid)
    requires Inv(s) && s.lock.None? && t in s.workers && !s.workers[t].pc.Exited?
    ensures
      var steps := [ShutdownList, ShutdownSignal(t)];
      && Runs(s, steps) && After(s, steps).workers == s.workers[t := s.workers[t].(cancel := true)]
  {
    assert RegistryNamesLiveWorkers(s);
    var s1 := Do(s, ShutdownList);
    assert s.registry[s.workers[t].cmd.pipelineId] == t && t in s1.signalled;
    RunCons(s1, ShutdownSignal(t), []);
    RunCons(s, ShutdownList, [ShutdownSignal(t)] + []);
    assert [ShutdownList] + ([ShutdownSignal(t)] + []) == [ShutdownList, ShutdownSignal(t)];
  }

  /** Registrations come and go only while the state lock is free to be taken. */
  lemma {:induction false} RegistryIsGuarded(s: State, step: Step)
    requires Enabled(s, step) && Do(s, step).registry != s.registry
    ensures s.lock.None?
  {
  }

  /** A deploy without a model name uses the models directory as it is: it never downloads. */
  lemma {:induction false} NamelessNeverDownloads(s: State, steps: seq<Step>, t: Tid)
    requires Runs(s, steps)
    requires t in s.workers ==> s.workers[t].cmd.modelName == "" ==> !Downloading(s.workers[t].pc)
    ensures
      var w := After(s, steps).workers;
      t in w && w[t].cmd.modelName == "" ==> !Downloading(w[t].pc)
    decreases |steps|
  {
    if steps != [] {
      if t in s.workers {
        CommandStep(s, steps[0], t);
        NamelessStep(s, steps[0], t);
      } else if t in Do(s, steps[0]).workers {
        NewWorker(s, steps[0], t);
      }
      NamelessNeverDownloads(Do(s, steps[0]), steps[1..], t);
    }
  }

  lemma NamelessStep(s: State, step: Step, t: Tid)
    requires Enabled(s, step) && t in s.workers && s.workers[t].cmd.modelName == "" ==> !Downloading(s.workers[t].pc)
    requires Enabled(s, step) && t in s.workers
    ensures t in Do(s, step).workers && (s.workers[t].cmd.modelName == "" ==> !Downloading(Do(s, step).workers[t].pc))
  {
    if !(step.Work? && step.t == t) {
      OthersStep(s, step, t);
    }
  }
}
