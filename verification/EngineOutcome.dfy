/**
 How a call of `ensure_engine` ends (src/link/infra/artifact_store.py:341-472): from the steps of a
 run alone, whether it fails; that it can succeed, and what it has then left; and how often an
 archive has been fetched.
 */
module EngineOutcome {
  import opened Common
  import opened EngineStore

  // ------------------------------------------- how a call ends, told from its run

  /** Where an exception fails the call; the removal of an old directory ignores its errors. */
  predicate RaiseIsFatal(pc: Pc) {
    pc.Downloading? || pc.Extracting? || pc.Marking? || pc.Retiring? || pc.Promoting? || pc.Unlinking?
  }

  /** Whether something that fails the call has happened to the process: it raised, its retiring rename met
      a leftover old directory, or the data it received has another hash or size than declared. */
  function NextFailed(sha: Bytes -> Hash, failed: bool, s: State, step: Step, p: Pid): (r: bool)
    requires Enabled(s, step)
  {
    match step
    case Call(u, _) => u != p && failed
    case Crash(_) => failed
    case Work(u, c) =>
      failed
      || (u == p && (var q := s.procs[p];
          || (c.Raise? && RaiseIsFatal(q.pc))
          || (c.Go? && q.pc.Retiring? && s.dest.Some? && s.retired.Some?)
          || (c.Received? && (sha(c.data) != q.variant.hash || (q.variant.size.Some? && q.variant.size.value != |c.data|)))))
  }

  function FailedIn(sha: Bytes -> Hash, failed: bool, s: State, steps: seq<Step>, p: Pid): (r: bool)
    requires Runs(sha, s, steps)
    decreases |steps|
  {
    if steps == [] then failed
    else FailedIn(sha, NextFailed(sha, failed, s, steps[0], p), Do(sha, s, steps[0]), steps[1..], p)
  }

  /** The process is on its way to an error, or has raised it. */
  predicate Failing(sha: Bytes -> Hash, s: State, q: Process) {
    || q.pc == Leaving(Error) || q.pc == Finished(Error)
    || (q.pc.Verifying? && q.variant.file in s.cache && !Verified(sha, q.variant, s.cache[q.variant.file]))
  }

  ghost predicate StoryOk(sha: Bytes -> Hash, failed: bool, s: State, p: Pid) {
    p in s.procs ==> (failed <==> Failing(sha, s, s.procs[p]))
  }

  // The archive a process is checking is not touched by the others: they are outside the section.
  lemma {:induction false} OthersLeaveTheArchive(sha: Bytes -> Hash, s: State, u: Pid, c: Choice, p: Pid)
    requires Inv(sha, s) && Enabled(s, Work(u, c)) && p in s.procs && u != p
    ensures Failing(sha, DoWork(sha, s, u, c), s.procs[p]) <==> Failing(sha, s, s.procs[p])
  {
    if s.procs[p].pc.Verifying? {
      assert !InSection(s.procs[u].pc);
    }
  }

  lemma {:induction false} StoryStep(sha: Bytes -> Hash, failed: bool, s: State, step: Step, p: Pid)
    requires Inv(sha, s) && Enabled(s, step) && StoryOk(sha, failed, s, p)
    ensures StoryOk(sha, NextFailed(sha, failed, s, step, p), Do(sha, s, step), p)
  {
    if step.Work? && p in s.procs {
      if step.p == p {
        assert SectionOk(sha, s, s.procs[p]);
      } else {
        OthersLeaveTheArchive(sha, s, step.p, step.c, p);
      }
    }
  }

  lemma {:induction false} StoryRun(sha: Bytes -> Hash, failed: bool, s: State, steps: seq<Step>, p: Pid)
    requires Inv(sha, s) && Runs(sha, s, steps) && StoryOk(sha, failed, s, p)
    ensures Inv(sha, After(sha, s, steps)) && StoryOk(sha, FailedIn(sha, failed, s, steps, p), After(sha, s, steps), p)
    decreases |steps|
  {
    if steps != [] {
      StepKeepsInv(sha, s, steps[0]);
      StoryStep(sha, failed, s, steps[0], p);
      StoryRun(sha, NextFailed(sha, failed, s, steps[0], p), Do(sha, s, steps[0]), steps[1..], p);
    }
  }

  /** A call that has ended raised if and only if one of those things happened to it; otherwise it returned. */
  lemma {:induction false} CallFailsIff(sha: Bytes -> Hash, s: State, steps: seq<Step>, p: Pid)
    requires Fresh(sha, s) && Runs(sha, s, steps)
    requires p in After(sha, s, steps).procs && After(sha, s, steps).procs[p].pc.Finished?
    ensures After(sha, s, steps).procs[p].pc == Finished(if FailedIn(sha, false, s, steps, p) then Error else Done)
  {
    StoryRun(sha, false, s, steps, p);
    var pc := After(sha, s, steps).procs[p].pc;
    assert pc.outcome.Done? || pc.outcome.Error?;
  }

  // -------------------------------------------------------- a call can succeed

  // How far a process still has to go.
  function Distance(pc: Pc): (n: nat) {
    match pc
    case FirstCheck => 15
    case Waiting => 14
    case Recheck => 13
    case LookInCache => 12
    case Downloading => 11
    case Verifying => 10
    case ClearStaging => 9
    case Extracting => 8
    case Marking => 7
    case ClearOld => 6
    case Retiring => 5
    case Promoting => 4
    case DropOld => 3
    case Unlinking => 2
    case Leaving(_) => 1
    case Finished(_) => 0
  }

  /** Nothing has failed so far, nor will by itself. */
  predicate Sound(sha: Bytes -> Hash, s: State, q: Process) {
    !Failing(sha, s, q) && (q.pc.Retiring? ==> s.retired.None?)
  }

  /** Nothing of the install is left lying about: no staging or old directory, and no archive. */
  predicate Tidy(s: State, file: string) { s.staging.None? && s.retired.None? && file !in s.cache }

  /** The process has its install to do, or has done it and tidied up so far. */
  predicate TidySoFar(s: State, q: Process) {
    match q.pc
    case FirstCheck => !Installed(s, q.variant.hash)
    case Waiting => !Installed(s, q.variant.hash)
    case Recheck => !Installed(s, q.variant.hash)
    case DropOld => s.staging.None?
    case Unlinking => s.staging.None? && s.retired.None?
    case Leaving(_) => Tidy(s, q.variant.file)
    case Finished(_) => Tidy(s, q.variant.file)
    case _ => true
  }

  /** The lock is the process's own, or free. */
  predicate Unhindered(s: State, p: Pid) { p in s.procs && (InSection(s.procs[p].pc) || s.lock.None?) }

  function Smooth(pc: Pc, data: Bytes): (c: Choice) { if pc.Downloading? then Received(data) else Go }

  lemma {:induction false} SmoothStep(sha: Bytes -> Hash, s: State, p: Pid, data: Bytes)
    requires Inv(sha, s) && Unhindered(s, p) && !s.procs[p].pc.Finished? && Sound(sha, s, s.procs[p])
    requires Verified(sha, s.procs[p].variant, data)
    ensures Enabled(s, Work(p, Smooth(s.procs[p].pc, data)))
    ensures
      var q := s.procs[p];
      var r := DoWork(sha, s, p, Smooth(q.pc, data));
      && Unhindered(r, p) && r.procs[p].variant == q.variant && Sound(sha, r, r.procs[p])
      && Distance(r.procs[p].pc) < Distance(q.pc) && (TidySoFar(s, q) ==> TidySoFar(r, r.procs[p]))
      && (r.procs[p].pc.Finished? ==> Installed(r, q.variant.hash))
  {
    assert SectionOk(sha, s, s.procs[p]);
  }

  lemma {:induction false} RunCons(sha: Bytes -> Hash, s: State, step: Step, rest: seq<Step>)
    requires Enabled(s, step) && Runs(sha, Do(sha, s, step), rest)
    ensures Runs(sha, s, [step] + rest) && After(sha, s, [step] + rest) == After(sha, Do(sha, s, step), rest)
  {
    assert ([step] + rest)[1..] == rest;
  }

  /** Left alone, with an archive of the declared size and hash to be had, a process to which nothing has
      happened yet returns by its own steps, with its engine in place. */
  lemma {:induction false} ProcessCanFinish(sha: Bytes -> Hash, s: State, p: Pid, data: Bytes) returns (steps: seq<Step>)
    requires Inv(sha, s) && Unhindered(s, p) && !s.procs[p].pc.Finished? && Sound(sha, s, s.procs[p])
    requires Verified(sha, s.procs[p].variant, data)
    ensures Runs(sha, s, steps) && forall i :: 0 <= i < |steps| ==> steps[i].Work? && steps[i].p == p
    ensures
      var q := s.procs[p];
      var r := After(sha, s, steps);
      && p in r.procs && r.procs[p] == q.(pc := Finished(Done)) && Installed(r, q.variant.hash)
      && (TidySoFar(s, q) ==> Tidy(r, q.variant.file))
    decreases Distance(s.procs[p].pc)
  {
    var step := Work(p, Smooth(s.procs[p].pc, data));
    SmoothStep(sha, s, p, data);
    StepKeepsInv(sha, s, step);
    var next := Do(sha, s, step);
    var rest := [];
    if !next.procs[p].pc.Finished? {
      rest := ProcessCanFinish(sha, next, p, data);
    }
    steps := [step] + rest;
    RunCons(sha, s, step, rest);
  }

  /** So from every reachable state in which the lock is free a new call can succeed; and if its engine was
      not in place, the install leaves neither archive nor staging nor old directory behind. */
  lemma {:induction false} CallCanSucceed(sha: Bytes -> Hash, s: State, p: Pid, v: Variant, data: Bytes) returns (steps: seq<Step>)
    requires Inv(sha, s) && s.lock.None? && p !in s.procs
    requires sha(data) == v.hash && (v.size.Some? ==> v.size.value == |data|)
    ensures Runs(sha, s, steps) && steps != [] && steps[0] == Call(p, v)
    ensures
      var r := After(sha, s, steps);
      && p in r.procs && r.procs[p] == Process(v, Finished(Done)) && Installed(r, v.hash)
      && (!Installed(s, v.hash) ==> Tidy(r, v.file))
  {
    StepKeepsInv(sha, s, Call(p, v));
    var rest := ProcessCanFinish(sha, Do(sha, s, Call(p, v)), p, data);
    steps := [Call(p, v)] + rest;
    RunCons(sha, s, Call(p, v), rest);
  }

  /** With the engine in place a call returns at once: it neither takes nor waits for the lock. */
  lemma {:induction false} InstalledReturnsAtOnce(sha: Bytes -> Hash, s: State, p: Pid, v: Variant)
    requires p !in s.procs && s.dest.Some? && s.dest.value.marker == Marker(v.hash)
    ensures
      var steps := [Call(p, v), Work(p, Go)];
      Runs(sha, s, steps) && After(sha, s, steps) == s.(procs := s.procs[p := Process(v, Finished(Done))])
  {
    var called := Do(sha, s, Call(p, v));
    assert DoWork(sha, called, p, Go) == s.(procs := s.procs[p := Process(v, Finished(Done))]);
    RunCons(sha, called, Work(p, Go), []);
    RunCons(sha, s, Call(p, v), [Work(p, Go)] + []);
    assert [Call(p, v)] + ([Work(p, Go)] + []) == [Call(p, v), Work(p, Go)];
  }

  // ------------------------------------------------------- failures and crashes

  /** An exception ends the call: it reports an error and lets go of the lock. The engine directory, the old one
      and the archive are as they were, and a half extracted staging directory stays behind. */
  lemma {:induction false} RaiseEndsTheCall(sha: Bytes -> Hash, s: State, p: Pid)
    requires Inv(sha, s) && p in s.procs && RaiseIsFatal(s.procs[p].pc)
    ensures
      var q := s.procs[p];
      var steps := [Work(p, Raise), Work(p, Go)];
      && Runs(sha, s, steps)
      && After(sha, s, steps) == s.(procs := s.procs[p := q.(pc := Finished(Error))], lock := None,
                                    staging := if q.pc.Extracting? then RUIN else s.staging)
  {
    assert SectionOk(sha, s, s.procs[p]);
    var raised := DoWork(sha, s, p, Raise);
    assert raised.procs[p].pc == Leaving(Error) && raised.lock == s.lock && raised.dest == s.dest;
    assert DoWork(sha, raised, p, Go).procs == s.procs[p := s.procs[p].(pc := Finished(Error))];
    RunCons(sha, raised, Work(p, Go), []);
    RunCons(sha, s, Work(p, Raise), [Work(p, Go)] + []);
    assert [Work(p, Raise)] + ([Work(p, Go)] + []) == [Work(p, Raise), Work(p, Go)];
  }

  /** What is left of a directory whose removal was cut short. */
  function Ruined(d: Option<Dir>): (r: Option<Dir>) { if d.Some? then Some(Dir(Incomplete, NoMarker)) else None }

  /** The actions that a crash can interrupt halfway. */
  predicate TakesTime(pc: Pc) { pc.ClearStaging? || pc.Extracting? || pc.Marking? || pc.ClearOld? || pc.DropOld? }

  /** What such an action has done by halfway: the process is still at it, and the engine directory is as it was. */
  function Halfway(s: State, pc: Pc): (r: State)
    requires pc.Marking? ==> s.staging.Some?
  {
    s.(staging := if pc.ClearStaging? then Ruined(s.staging)
                  else if pc.Extracting? then Some(Dir(Incomplete, NoMarker))
                  else if pc.Marking? then Some(Dir(s.staging.value.content, TornMarker)) else s.staging,
       retired := if pc.ClearOld? || pc.DropOld? then Ruined(s.retired) else s.retired)
  }

  /** A crash in the middle of a removal, an extraction or the writing of the marker leaves that half done, and
      frees the lock. */
  lemma {:induction false} CrashCanTear(sha: Bytes -> Hash, s: State, p: Pid)
    requires Inv(sha, s) && p in s.procs && TakesTime(s.procs[p].pc)
    ensures s.procs[p].pc.Marking? ==> s.staging.Some?
    ensures Runs(sha, s, [Work(p, Tear)]) && After(sha, s, [Work(p, Tear)]) == Halfway(s, s.procs[p].pc)
    ensures
      var steps := [Work(p, Tear), Crash(p)];
      Runs(sha, s, steps) && After(sha, s, steps) == Halfway(s, s.procs[p].pc).(procs := s.procs - {p}, lock := None)
  {
    assert SectionOk(sha, s, s.procs[p]);
    var torn := DoWork(sha, s, p, Tear);
    assert s.procs[p := s.procs[p]] == s.procs;
    assert torn == Halfway(s, s.procs[p].pc);
    RunCons(sha, s, Work(p, Tear), []);
    assert [Work(p, Tear)] + [] == [Work(p, Tear)];
    RunCons(sha, torn, Crash(p), []);
    RunCons(sha, s, Work(p, Tear), [Crash(p)] + []);
    assert [Work(p, Tear)] + ([Crash(p)] + []) == [Work(p, Tear), Crash(p)];
  }

  function MovedOn(s: State, p: Pid, pc: Pc): (r: State)
    requires p in s.procs
  {
    s.(procs := s.procs[p := s.procs[p].(pc := pc)])
  }

  /** Staging is empty before the extraction; an old directory that cannot be removed is passed over, and then the
      engine that is in place cannot be retired: the call fails and leaves it there; otherwise it is moved aside. */
  lemma {:induction false} DirectoryActions(sha: Bytes -> Hash, s: State, p: Pid)
    requires Inv(sha, s) && p in s.procs
    ensures s.procs[p].pc.ClearStaging? ==>
              Enabled(s, Work(p, Go)) && Do(sha, s, Work(p, Go)) == MovedOn(s, p, Extracting).(staging := None)
    ensures s.procs[p].pc.ClearOld? ==>
              Enabled(s, Work(p, Raise)) && Do(sha, s, Work(p, Raise)) == MovedOn(s, p, Retiring)
    ensures s.procs[p].pc.DropOld? ==>
              Enabled(s, Work(p, Raise)) && Do(sha, s, Work(p, Raise)) == MovedOn(s, p, Unlinking)
    ensures s.procs[p].pc.Retiring? ==>
              && Enabled(s, Work(p, Go))
              && Do(sha, s, Work(p, Go)) ==
                 if s.dest.None? then MovedOn(s, p, Promoting)
                 else if s.retired.Some? then MovedOn(s, p, Leaving(Error))
                 else MovedOn(s, p, Promoting).(dest := None, retired := s.dest)
  {
  }

  /** The lock is held by a process in the section, and by nobody else: a crash frees it. */
  ghost predicate LockIsUsed(s: State) {
    s.lock.Some? ==> s.lock.value in s.procs && InSection(s.procs[s.lock.value].pc)
  }

  lemma {:induction false} LockIsAlwaysUsed(sha: Bytes -> Hash, s: State, steps: seq<Step>)
    requires Inv(sha, s) && LockIsUsed(s) && Runs(sha, s, steps)
    ensures LockIsUsed(After(sha, s, steps))
    decreases |steps|
  {
    if steps != [] {
      StepKeepsInv(sha, s, steps[0]);
      assert LockOk(s);
      LockIsAlwaysUsed(sha, Do(sha, s, steps[0]), steps[1..]);
    }
  }

  /** A process downloads only while the cache has no archive of its hash under its name. */
  ghost predicate FetchIsNeeded(sha: Bytes -> Hash, s: State) {
    forall p :: p in s.procs && s.procs[p].pc.Downloading? ==>
      var v := s.procs[p].variant; v.file !in s.cache || sha(s.cache[v.file]) != v.hash
  }

  lemma {:induction false} FetchStaysNeeded(sha: Bytes -> Hash, s: State, step: Step)
    requires Inv(sha, s) && FetchIsNeeded(sha, s) && Enabled(s, step)
    ensures FetchIsNeeded(sha, Do(sha, s, step))
  {
    var r := Do(sha, s, step);
    forall p | p in r.procs && r.procs[p].pc.Downloading?
      ensures var v := r.procs[p].variant; v.file !in r.cache || sha(r.cache[v.file]) != v.hash
    {
      if step.Work? && step.p != p {
        assert InSection(s.procs[p].pc) && !InSection(s.procs[step.p].pc);
      }
    }
  }

  lemma {:induction false} OnlyMissingArchivesAreFetched(sha: Bytes -> Hash, s: State, steps: seq<Step>)
    requires Inv(sha, s) && FetchIsNeeded(sha, s) && Runs(sha, s, steps)
    ensures FetchIsNeeded(sha, After(sha, s, steps))
    decreases |steps|
  {
    if steps != [] {
      StepKeepsInv(sha, s, steps[0]);
      FetchStaysNeeded(sha, s, steps[0]);
      OnlyMissingArchivesAreFetched(sha, Do(sha, s, steps[0]), steps[1..]);
    }
  }

  // ----------------------------------------------------- what the history counts

  /** The archives of the hash that came over the network in the run. */
  function Fetches(sha: Bytes -> Hash, s: State, steps: seq<Step>, h: Hash): (n: nat)
    requires Runs(sha, s, steps)
    decreases |steps|
  {
    if steps == [] then 0
    else
      (if steps[0].Work? && steps[0].c.Received? && s.procs[steps[0].p].variant.hash == h then 1 else 0)
      + Fetches(sha, Do(sha, s, steps[0]), steps[1..], h)
  }

  lemma {:induction false} FetchedCounts(sha: Bytes -> Hash, s: State, steps: seq<Step>, h: Hash)
    requires Runs(sha, s, steps)
    ensures After(sha, s, steps).fetched[h] == s.fetched[h] + Fetches(sha, s, steps, h)
    decreases |steps|
  {
    if steps != [] {
      FetchedCounts(sha, Do(sha, s, steps[0]), steps[1..], h);
    }
  }

  /** Data that turns out wrong does not stay in the cache for the next call to find. */
  lemma {:induction false} WrongDataIsRemoved(sha: Bytes -> Hash, s: State, p: Pid, c: Choice)
    requires Inv(sha, s) && Enabled(s, Work(p, c)) && s.procs[p].pc.Verifying?
    ensures
      var v := s.procs[p].variant;
      var r := DoWork(sha, s, p, c);
      r.procs[p].pc == Leaving(Error) ==> v.file !in r.cache
  {
  }
}
