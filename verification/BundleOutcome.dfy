/**
 How an update attempt ends (src/link/app/updater.py:1482-1561): which versions `current` can lead
 to, told from the self-checks of the run; what a failed self-check leaves; and that an attempt and
 a rollback can go through.
 */
module BundleOutcome {
  import opened Common
  import opened BundleUpdate

  // ------------------------------------------------- only what passed its check

  /** The versions that have passed their self-check and have not been replaced since. */
  function NextPassed(passed: set<Version>, s: State, step: Step): (r: set<Version>) {
    if step == Vet(true) && s.pc.Checking? then passed + {s.pc.target}
    else if step == Go && s.pc.Moving? then passed - {s.pc.target}
    else passed
  }

  function Passed(passed: set<Version>, s: State, steps: seq<Step>): (r: set<Version>)
    requires Runs(s, steps)
    decreases |steps|
  {
    if steps == [] then passed else Passed(NextPassed(passed, s, steps[0]), Do(s, steps[0]), steps[1..])
  }

  /** `current`, and a version about to be made so, have passed. */
  predicate CurrentPassed(passed: set<Version>, s: State) {
    Read(s.disk.current).Some? && Read(s.disk.current).value in passed
    && (s.pc.FlipCurrent? || s.pc.TidyCurrent? ==> s.pc.target in passed)
  }

  lemma PassedGo(passed: set<Version>, s: State)
    requires Inv(s) && Enabled(s, Go) && CurrentPassed(passed, s)
    requires s.pc.RollTidy? ==> s.pc.back in passed
    ensures CurrentPassed(NextPassed(passed, s, Go), DoGo(s)) && !DoGo(s).pc.RollTidy?
  {
  }

  lemma PassedStep(passed: set<Version>, s: State, step: Step)
    requires Inv(s) && Enabled(s, step) && !step.Rollback? && CurrentPassed(passed, s)
    requires s.pc.RollTidy? ==> s.pc.back in passed
    ensures CurrentPassed(NextPassed(passed, s, step), Do(s, step))
    ensures Do(s, step).pc.RollTidy? ==> Do(s, step).pc.back in NextPassed(passed, s, step)
  {
    if step.Go? {
      PassedGo(passed, s);
    }
  }

  lemma {:induction false} PassedRun(passed: set<Version>, s: State, steps: seq<Step>)
    requires Inv(s) && Runs(s, steps) && NoRollback(steps) && CurrentPassed(passed, s)
    requires s.pc.RollTidy? ==> s.pc.back in passed
    ensures Inv(After(s, steps)) && CurrentPassed(Passed(passed, s, steps), After(s, steps))
    decreases |steps|
  {
    if steps != [] {
      assert !steps[0].Rollback?;
      assert forall i :: 0 <= i < |steps[1..]| ==> steps[1..][i] == steps[i + 1];
      StepKeepsInv(s, steps[0]);
      PassedStep(passed, s, steps[0]);
      PassedRun(NextPassed(passed, s, steps[0]), Do(s, steps[0]), steps[1..]);
    }
  }

  /** The run does not put the version in place anew. */
  predicate NeverMoved(s: State, steps: seq<Step>, v: Version)
    requires Runs(s, steps)
    decreases |steps|
  {
    steps == []
    || (!(steps[0] == Go && s.pc.Moving? && s.pc.target == v) && NeverMoved(Do(s, steps[0]), steps[1..], v))
  }

  /** Some step of the run is a yes of the version's self-check, after the last time it was put in place. */
  predicate VettedIn(s: State, steps: seq<Step>, v: Version)
    requires Runs(s, steps)
    decreases |steps|
  {
    steps != []
    && ((steps[0] == Vet(true) && s.pc.Checking? && s.pc.target == v && NeverMoved(Do(s, steps[0]), steps[1..], v))
        || VettedIn(Do(s, steps[0]), steps[1..], v))
  }

  lemma {:induction false} PassedIff(passed: set<Version>, s: State, steps: seq<Step>, v: Version)
    requires Runs(s, steps)
    ensures v in Passed(passed, s, steps) <==> VettedIn(s, steps, v) || (v in passed && NeverMoved(s, steps, v))
    decreases |steps|
  {
    if steps != [] {
      PassedIff(NextPassed(passed, s, steps[0]), Do(s, steps[0]), steps[1..], v);
    }
  }

  /** Over all runs of attempts and crashes, `current` leads to the version it led to at the start, still
      the same directory, or to one whose self-check answered yes in the run, after the last time that
      version was put in place. */
  lemma {:induction false} CurrentHasPassed(s: State, steps: seq<Step>)
    requires Sane(s) && Runs(s, steps) && NoRollback(steps)
    ensures
      var first := Resolve(s.disk.versions, s.disk.current);
      var d := After(s, steps).disk;
      var v := Resolve(d.versions, d.current);
      v.Some? && (VettedIn(s, steps, v.value) || (v == first && NeverMoved(s, steps, v.value)))
  {
    var first := Resolve(s.disk.versions, s.disk.current).value;
    PassedRun({first}, s, steps);
    var d := After(s, steps).disk;
    PassedIff({first}, s, steps, Resolve(d.versions, d.current).value);
  }

  /** With rollbacks too, as long as no attempt reinstalls the stamped version: the stamp counts as passed. */
  predicate StampPassed(passed: set<Version>, s: State) {
    && CurrentPassed(passed, s) && (s.disk.stamp.Some? ==> s.disk.stamp.value in passed)
    && (s.pc.RollTidy? ==> s.pc.back in passed)
    && ((s.pc.FlipCurrent? || s.pc.TidyCurrent? || s.pc.FlipPrevious? || s.pc.TidyPrevious? || s.pc.Stamping?) ==>
          s.pc.live in passed)
  }

  lemma StampPassedGo(passed: set<Version>, s: State)
    requires Inv(s) && StampOk(s) && Enabled(s, Go) && StampPassed(passed, s)
    ensures StampPassed(NextPassed(passed, s, Go), DoGo(s))
  {
  }

  lemma StampPassedStep(passed: set<Version>, s: State, step: Step)
    requires Inv(s) && StampOk(s) && Enabled(s, step) && StampPassed(passed, s)
    requires !(step.Begin? && s.disk.stamp == Some(step.release))
    ensures StampPassed(NextPassed(passed, s, step), Do(s, step))
  {
    if step.Go? {
      StampPassedGo(passed, s);
    }
  }

  lemma {:induction false} StampPassedRun(passed: set<Version>, s: State, steps: seq<Step>)
    requires Inv(s) && StampOk(s) && SparingRun(s, steps) && StampPassed(passed, s)
    ensures Inv(After(s, steps)) && StampPassed(Passed(passed, s, steps), After(s, steps))
    decreases |steps|
  {
    if steps != [] {
      StepKeepsInv(s, steps[0]);
      StepKeepsStamp(s, steps[0]);
      StampPassedStep(passed, s, steps[0]);
      StampPassedRun(NextPassed(passed, s, steps[0]), Do(s, steps[0]), steps[1..]);
    }
  }

  lemma {:induction false} RolledBackHasPassed(s: State, steps: seq<Step>)
    requires Sane(s) && StampOk(s) && SparingRun(s, steps)
    ensures
      var first := Resolve(s.disk.versions, s.disk.current);
      var d := After(s, steps).disk;
      var v := Resolve(d.versions, d.current);
      v.Some? && (VettedIn(s, steps, v.value) || ((v == first || v == s.disk.stamp) && NeverMoved(s, steps, v.value)))
  {
    var first := Resolve(s.disk.versions, s.disk.current).value;
    var passed := {first} + if s.disk.stamp.Some? then {s.disk.stamp.value} else {};
    StampPassedRun(passed, s, steps);
    var d := After(s, steps).disk;
    PassedIff(passed, s, steps, Resolve(d.versions, d.current).value);
  }

  // ------------------------------------------------------ attempts undisturbed

  lemma {:induction false} RunCons(s: State, step: Step, rest: seq<Step>)
    requires Enabled(s, step) && Runs(Do(s, step), rest)
    ensures Runs(s, [step] + rest) && After(s, [step] + rest) == After(Do(s, step), rest)
  {
    assert ([step] + rest)[1..] == rest;
  }

  /** As far as the self-check: the release is in place, unchecked, and nothing else has changed. */
  lemma {:induction false} AttemptReachesCheck(s: State, release: Version, rest: seq<Step>)
    requires Sane(s) && release != "" && Resolve(s.disk.versions, s.disk.current) != Some(release)
    requires
      var live := Resolve(s.disk.versions, s.disk.current).value;
      var disk := s.disk.(versions := s.disk.versions[release := Whole(false)]);
      Runs(s.(disk := disk, pc := Checking(live, release)), rest)
    ensures
      var live := Resolve(s.disk.versions, s.disk.current).value;
      var disk := s.disk.(versions := s.disk.versions[release := Whole(false)]);
      var steps := [Begin(release), Go, Go, Go] + rest;
      Runs(s, steps) && After(s, steps) == After(s.(disk := disk, pc := Checking(live, release)), rest)
  {
    var s1 := Do(s, Begin(release));
    var s2 := Do(s1, Go);
    var s3 := Do(s2, Go);
    var s4 := Do(s3, Go);
    assert s4.disk.versions == s.disk.versions[release := Whole(false)];
    RunCons(s3, Go, rest);
    RunCons(s2, Go, [Go] + rest);
    RunCons(s1, Go, [Go] + ([Go] + rest));
    RunCons(s, Begin(release), [Go] + ([Go] + ([Go] + rest)));
    assert [Begin(release)] + ([Go] + ([Go] + ([Go] + rest))) == [Begin(release), Go, Go, Go] + rest;
  }

  /** A release that fails its self-check leaves nothing behind: the attempt ends, its directory is gone,
      and the pointers, the stamp and every other version are as before. */
  lemma {:induction false} FailedCheckLeavesNothing(s: State, release: Version)
    requires Sane(s) && release != "" && Resolve(s.disk.versions, s.disk.current) != Some(release)
    ensures
      var steps := [Begin(release), Go, Go, Go] + [Vet(false), Go];
      Runs(s, steps) && After(s, steps) == s.(disk := s.disk.(versions := s.disk.versions - {release}))
  {
    var live := Resolve(s.disk.versions, s.disk.current).value;
    var checking := s.(disk := s.disk.(versions := s.disk.versions[release := Whole(false)]), pc := Checking(live, release));
    var failed := Do(checking, Vet(false));
    assert s.disk.versions[release := Whole(false)] - {release} == s.disk.versions - {release};
    assert Do(failed, Go) == s.(disk := s.disk.(versions := s.disk.versions - {release}));
    RunCons(failed, Go, []);
    RunCons(checking, Vet(false), [Go]);
    assert [Go] + [] == [Go] && [Vet(false)] + [Go] == [Vet(false), Go];
    AttemptReachesCheck(s, release, [Vet(false), Go]);
  }

  /** The names of a directory in some order. */
  lemma {:induction false} Listed(names: set<Version>) returns (order: seq<Version>)
    ensures forall v :: v in order <==> v in names
    decreases |names|
  {
    if names == {} {
      order := [];
    } else {
      var v :| v in names;
      var rest := Listed(names - {v});
      order := [v] + rest;
    }
  }

  /** A pointer of one shape only. */
  function Shape(v: Version, symlink: bool): (p: Pointer) {
    if symlink then Pointer(Some(v), None) else Pointer(None, Some(v))
  }

  /** The versions among these names, and whatever is not a version. */
  function Only(versions: map<Version, Dir>, kept: set<Version>): (r: map<Version, Dir>) {
    map v | v in versions && (v in kept || IsTemp(v)) :: versions[v]
  }

  /** An install root after a finished attempt: the release, vetted, is current; the version that was live is
      previous and stamped; the pointers keep the shape that current had; no other version is left. */
  function Updated(d: Disk, live: Version, release: Version): (r: Disk) {
    var symlink := d.current.link.Some?;
    Disk(Only(d.versions[release := Whole(true)], {live, release}), Shape(release, symlink), Shape(live, symlink), Some(live))
  }

  /** One that passes goes through: from every sane install and for every release that is not live, an
      attempt left alone returns, and ends there. */
  lemma {:induction false} AttemptCanFinish(s: State, release: Version) returns (steps: seq<Step>)
    requires Sane(s) && release != "" && Resolve(s.disk.versions, s.disk.current) != Some(release)
    ensures Runs(s, steps) && NoRollback(steps) && Resolve(s.disk.versions, s.disk.current).Some?
    ensures
      var live := Resolve(s.disk.versions, s.disk.current).value;
      var r := After(s, steps);
      && r == s.(disk := Updated(s.disk, live, release), pc := Returned(live, release))
      && Enabled(r, Go) && Do(r, Go) == r.(pc := Idle)
  {
    var live := Resolve(s.disk.versions, s.disk.current).value;
    var checking := s.(disk := s.disk.(versions := s.disk.versions[release := Whole(false)]), pc := Checking(live, release));
    var rest := CheckedCanFinish(checking);
    assert checking.disk.versions[release := Whole(true)] == s.disk.versions[release := Whole(true)];
    AttemptReachesCheck(s, release, rest);
    steps := [Begin(release), Go, Go, Go] + rest;
    assert forall i :: 4 <= i < |steps| ==> steps[i] == rest[i - 4];
  }

  lemma {:induction false} CheckedCanFinish(s: State) returns (steps: seq<Step>)
    requires Inv(s) && s.pc.Checking? && s.pc.target in s.disk.versions
    ensures Runs(s, steps) && NoRollback(steps)
    ensures After(s, steps) == s.(disk := Updated(s.disk, s.pc.live, s.pc.target), pc := Returned(s.pc.live, s.pc.target))
  {
    StepKeepsInv(s, Vet(true));
    var rest := FlippedCanFinish(Do(s, Vet(true)));
    steps := [Vet(true)] + rest;
    RunCons(s, Vet(true), rest);
  }

  lemma {:induction false} FlippedCanFinish(s: State) returns (steps: seq<Step>)
    requires Inv(s) && s.pc.FlipCurrent?
    ensures Runs(s, steps) && NoRollback(steps)
    ensures
      var live, target := s.pc.live, s.pc.target;
      After(s, steps) == s.(disk := Disk(Only(s.disk.versions, {live, target}), Shape(target, s.disk.current.link.Some?),
                                         Shape(live, s.disk.current.link.Some?), Some(live)),
                            pc := Returned(live, target))
  {
    var s1 := Do(s, Go);
    var s2 := Do(s1, Go);
    var rest := DemotedCanFinish(s2);
    RunCons(s1, Go, rest);
    steps := [Go] + ([Go] + rest);
    RunCons(s, Go, [Go] + rest);
    assert forall i :: 2 <= i < |steps| ==> steps[i] == rest[i - 2];
  }

  lemma {:induction false} DemotedCanFinish(s: State) returns (steps: seq<Step>)
    requires s.pc.FlipPrevious? && s.pc.was == Some(s.pc.live) && s.pc.live != s.pc.target && s.pc.live != "" && s.pc.target != ""
    requires Read(s.disk.current) == Some(s.pc.target)
    ensures Runs(s, steps) && NoRollback(steps)
    ensures
      var live, target := s.pc.live, s.pc.target;
      After(s, steps) == s.(disk := Disk(Only(s.disk.versions, {live, target}), s.disk.current, Shape(live, s.pc.symlink), Some(live)),
                            pc := Returned(live, target))
  {
    var s1 := Do(s, Go);
    var s2 := Do(s1, Go);
    var s3 := Do(s2, Go);
    var rest := PlannedCanFinish(s3);
    RunCons(s2, Go, rest);
    RunCons(s1, Go, [Go] + rest);
    steps := [Go] + ([Go] + ([Go] + rest));
    RunCons(s, Go, [Go] + ([Go] + rest));
    assert forall i :: 3 <= i < |steps| ==> steps[i] == rest[i - 3];
  }

  lemma {:induction false} PlannedCanFinish(s: State) returns (steps: seq<Step>)
    requires s.pc.Planning? && s.pc.live != s.pc.target && s.pc.live != "" && s.pc.target != ""
    requires Read(s.disk.current) == Some(s.pc.target) && Read(s.disk.previous) == Some(s.pc.live)
    ensures Runs(s, steps) && NoRollback(steps)
    ensures
      var live, target := s.pc.live, s.pc.target;
      After(s, steps) == s.(disk := s.disk.(versions := Only(s.disk.versions, {live, target})), pc := Returned(live, target))
  {
    var order := Listed(set v | v in s.disk.versions && !IsTemp(v));
    assert (set v | v in order) == (set v | v in s.disk.versions && !IsTemp(v));
    assert Pinned(s.disk) == {s.pc.live, s.pc.target};
    var s1 := Do(s, Plan(order));
    var rest := CollectedCanFinish(s1);
    steps := [Plan(order)] + rest;
    RunCons(s, Plan(order), rest);
  }

  lemma {:induction false} CollectedCanFinish(s: State) returns (steps: seq<Step>)
    requires s.pc.Collecting?
    ensures Runs(s, steps) && NoRollback(steps)
    ensures After(s, steps) == s.(disk := s.disk.(versions := Only(s.disk.versions, s.pc.keepers)), pc := Returned(s.pc.live, s.pc.target))
    decreases |s.disk.versions|
  {
    if v :| v in s.disk.versions && v !in s.pc.keepers && !IsTemp(v) {
      var next := Do(s, Drop(v));
      assert next.disk.versions.Keys == s.disk.versions.Keys - {v};
      assert |s.disk.versions.Keys| == |s.disk.versions|;
      var rest := CollectedCanFinish(next);
      assert Only(next.disk.versions, s.pc.keepers) == Only(s.disk.versions, s.pc.keepers);
      steps := [Drop(v)] + rest;
      RunCons(s, Drop(v), rest);
    } else {
      assert Only(s.disk.versions, s.pc.keepers) == s.disk.versions;
      assert Runs(Do(s, Go), []);
      steps := [Go] + [];
      RunCons(s, Go, []);
    }
  }

  /** A rollback left alone takes `current` back to the stamped version, and drops `previous` and the stamp; the
      pointer stays a symlink if it was one and symlinks work. If the stamped version is gone, it drops the stamp only. */
  lemma {:induction false} RollbackCanFinish(s: State, symlinkWorks: bool)
    requires Sane(s) && s.disk.stamp.Some?
    ensures
      var back := s.disk.stamp.value;
      var gone := back !in s.disk.versions;
      var steps := if gone then [Rollback(symlinkWorks)] else [Rollback(symlinkWorks), Go, Go, Go];
      && Runs(s, steps)
      && After(s, steps) == s.(disk := if gone then s.disk.(stamp := None)
                                       else Disk(s.disk.versions, Shape(back, s.disk.current.link.Some? && symlinkWorks), Pointer(None, None), None))
  {
    var s1 := Do(s, Rollback(symlinkWorks));
    if s.disk.stamp.value in s.disk.versions {
      RolledCanFinish(s1);
      RunCons(s, Rollback(symlinkWorks), [Go, Go, Go]);
      assert [Rollback(symlinkWorks)] + [Go, Go, Go] == [Rollback(symlinkWorks), Go, Go, Go];
    } else {
      RunCons(s, Rollback(symlinkWorks), []);
      assert [Rollback(symlinkWorks)] + [] == [Rollback(symlinkWorks)];
    }
  }

  lemma {:induction false} RolledCanFinish(s: State)
    requires s.pc.RollTidy?
    ensures Runs(s, [Go, Go, Go])
    ensures After(s, [Go, Go, Go]) ==
            s.(disk := Disk(s.disk.versions, Tidy(s.disk.current, s.pc.symlink), Pointer(None, None), None), pc := Idle)
  {
    var s1 := Do(s, Go);
    var s2 := Do(s1, Go);
    RunCons(s2, Go, []);
    RunCons(s1, Go, [Go] + []);
    RunCons(s, Go, [Go] + ([Go] + []));
    assert [Go] + ([Go] + ([Go] + [])) == [Go, Go, Go];
  }

  /** Once the window has passed, the stamp is gone, and with it the rollback. */
  lemma ExpiredStampIsGone(s: State, symlinkWorks: bool)
    requires Sane(s)
    ensures Enabled(s, Expire) && Do(s, Expire) == s.(disk := s.disk.(stamp := None))
    ensures !Enabled(Do(s, Expire), Rollback(symlinkWorks))
  {
  }

  /** A tree removal is not atomic: wherever the program removes a version, a crash can leave it half removed. */
  lemma {:induction false} CrashCanTear(s: State, v: Version)
    requires v in s.disk.versions
    requires
      || ((s.pc.Clearing? || s.pc.Discarding?) && v == s.pc.target)
      || (s.pc.Collecting? && v !in s.pc.keepers && !IsTemp(v))
    ensures Runs(s, [Tear(v), Crash])
    ensures After(s, [Tear(v), Crash]) == s.(disk := s.disk.(versions := s.disk.versions[v := Torn]), pc := Idle)
  {
    var s1 := Do(s, Tear(v));
    RunCons(s1, Crash, []);
    RunCons(s, Tear(v), [Crash] + []);
    assert [Tear(v)] + ([Crash] + []) == [Tear(v), Crash];
  }
}
