/**
 The A/B bundle update on disk: `swap_bundle`, `flip_current`, the two pointer
 shapes, the stamp, and the supervisor's rollback
 (src/link/app/updater.py:571-678, 1482-1577;
 crates/link/src-tauri/src/supervisor/mod.rs:432-545).

 A step is one change of the install root.  A crash may follow any step and
 leaves the disk as it is; the next attempt starts from there.  Renames are
 atomic, the removal of a directory tree is not.
 */
module BundleUpdate {
  import opened Common
  import VersionGc

  type Version = string

  // A version directory: half removed, or a complete tree which has or has not
  // passed the self-check (the first install counts as passed).
  datatype Dir = Torn | Whole(vetted: bool)

  // `current` / `CURRENT`, or `previous` / `PREVIOUS`: a symlink and a text file.
  datatype Pointer = Pointer(link: Option<Version>, file: Option<Version>)

  datatype Disk = Disk(
    versions: map<Version, Dir>,
    current: Pointer,
    previous: Pointer,
    stamp: Option<Version>)

  // Where an attempt is.  `live` is the version it read from the manifest at its
  // start, `target` the release it installs.
  datatype Pc =
    | Idle
    | Staging(live: Version, target: Version)         // download, verify, extract
    | Clearing(live: Version, target: Version)        // rmtree(target) if it exists
    | Moving(live: Version, target: Version)          // os.replace(payload, target)
    | Checking(live: Version, target: Version)        // signature and self-check
    | Discarding(live: Version, target: Version)      // failed: rmtree(target)
    | FlipCurrent(live: Version, target: Version)
    | TidyCurrent(live: Version, target: Version, was: Option<Version>, symlink: bool)
    | FlipPrevious(live: Version, target: Version, was: Option<Version>, symlink: bool)
    | TidyPrevious(live: Version, target: Version, symlink: bool)
    | Stamping(live: Version, target: Version)
    | Planning(live: Version, target: Version)        // UI apps, then choose the keepers
    | Collecting(live: Version, target: Version, keepers: set<Version>)
    | Returned(live: Version, target: Version)        // swap_bundle returned True
    | RollTidy(back: Version, symlink: bool)          // rollback: drop the other shape
    | RollPrevious(back: Version)                     // rollback: drop `previous`
    | RollStamp(back: Version)                        // rollback: drop the stamp

  datatype State = State(disk: Disk, pc: Pc, posix: bool)

  datatype Step =
    | Begin(release: Version)
    | Go                              // the next action of the running attempt or rollback
    | Tear(v: Version)                // a tree removal has begun
    | Vet(ok: bool)
    | Plan(order: seq<Version>)       // candidates, newest first
    | Drop(v: Version)                // garbage collection removes a version
    | Crash                           // also any exception that ends the attempt
    | Rollback(symlinkWorks: bool)    // runtime exited nonzero inside the window
    | Expire                          // runtime exited nonzero outside the window

  // ------------------------------------------------------------------ pointers

  /** `_resolve_pointer`: a symlink that leads to a directory, else a file that does. */
  function Resolve(versions: map<Version, Dir>, p: Pointer): (r: Option<Version>) {
    if p.link.Some? && p.link.value in versions then p.link
    else if p.file.Some? && p.file.value in versions then p.file
    else None
  }

  /** `_read_pointer_version`: the version that is named, whether or not its directory exists. */
  function Read(p: Pointer): (r: Option<Version>) {
    if p.link.Some? then p.link
    else if p.file.Some? && p.file.value != "" then p.file
    else None
  }

  predicate UsesSymlink(p: Pointer, posix: bool) {
    p.link.Some? || (p.file.None? && posix)
  }

  // `_write_pointer`: first the atomic replace, then the removal of the other shape.
  function Write(p: Pointer, v: Version, symlink: bool): (r: Pointer) {
    if symlink then p.(link := Some(v)) else p.(file := Some(v))
  }

  function Tidy(p: Pointer, symlink: bool): (r: Pointer) {
    if symlink then p.(file := None) else p.(link := None)
  }

  function Pinned(d: Disk): (r: set<Version>) {
    VersionGc.Pinned(Read(d.current), Read(d.previous))
  }

  predicate IsTemp(v: Version) { |v| >= 4 && v[|v| - 4..] == ".tmp" }

  // --------------------------------------------------------------------- steps

  predicate Enabled(s: State, step: Step) {
    match step
    case Begin(r) => s.pc.Idle? && r != ""
    case Rollback(_) => s.pc.Idle? && s.disk.stamp.Some?
    case Expire => s.pc.Idle?
    case Crash => true
    case Tear(v) =>
      && v in s.disk.versions
      && (((s.pc.Clearing? || s.pc.Discarding?) && v == s.pc.target)
          || (s.pc.Collecting? && v !in s.pc.keepers && !IsTemp(v)))
    case Drop(v) => s.pc.Collecting? && v in s.disk.versions && v !in s.pc.keepers && !IsTemp(v)
    case Vet(_) => s.pc.Checking?
    case Plan(order) => s.pc.Planning? && (set v | v in order) == (set v | v in s.disk.versions && !IsTemp(v))
    case Go => !s.pc.Idle? && !s.pc.Checking? && !s.pc.Planning?
  }

  function DoGo(s: State): (r: State)
    requires Enabled(s, Go)
  {
    var d := s.disk;
    match s.pc
    case Staging(live, target) => s.(pc := Clearing(live, target))
    case Clearing(live, target) => s.(disk := d.(versions := d.versions - {target}), pc := Moving(live, target))
    case Moving(live, target) =>
      s.(disk := d.(versions := d.versions[target := Whole(false)]), pc := Checking(live, target))
    case Discarding(live, target) => s.(disk := d.(versions := d.versions - {target}), pc := Idle)
    case FlipCurrent(live, target) =>
      if target !in d.versions then s.(pc := Idle)  // "Cannot flip current to missing version"
      else
        var symlink := UsesSymlink(d.current, s.posix);
        s.(disk := d.(current := Write(d.current, target, symlink)),
           pc := TidyCurrent(live, target, Read(d.current), symlink))
    case TidyCurrent(live, target, was, symlink) =>
      s.(disk := d.(current := Tidy(d.current, symlink)), pc := FlipPrevious(live, target, was, symlink))
    case FlipPrevious(live, target, was, symlink) =>
      if was.Some? && was.value != target
      then s.(disk := d.(previous := Write(d.previous, was.value, symlink)), pc := TidyPrevious(live, target, symlink))
      else s.(pc := Stamping(live, target))
    case TidyPrevious(live, target, symlink) =>
      s.(disk := d.(previous := Tidy(d.previous, symlink)), pc := Stamping(live, target))
    case Stamping(live, target) => s.(disk := d.(stamp := Some(live)), pc := Planning(live, target))
    case Collecting(live, target, _) => s.(pc := Returned(live, target))
    case Returned(_, _) => s.(pc := Idle)
    case RollTidy(back, symlink) => s.(disk := d.(current := Tidy(d.current, symlink)), pc := RollPrevious(back))
    case RollPrevious(back) => s.(disk := d.(previous := Pointer(None, None)), pc := RollStamp(back))
    case RollStamp(_) => s.(disk := d.(stamp := None), pc := Idle)
  }

  function Do(s: State, step: Step): (r: State)
    requires Enabled(s, step)
  {
    var d := s.disk;
    match step
    case Begin(release) =>
      // The manifest is the one of the directory `current` resolves to.
      var live := Resolve(d.versions, d.current);
      if live.None? || live.value == release then s else s.(pc := Staging(live.value, release))
    case Go => DoGo(s)
    case Tear(v) => s.(disk := d.(versions := d.versions[v := Torn]))
    case Vet(ok) =>
      if ok then s.(disk := d.(versions := d.versions[s.pc.target := Whole(true)]), pc := FlipCurrent(s.pc.live, s.pc.target))
      else s.(pc := Discarding(s.pc.live, s.pc.target))
    case Plan(order) => s.(pc := Collecting(s.pc.live, s.pc.target, VersionGc.Keepers(Pinned(d), order, 2)))
    case Drop(v) => s.(disk := d.(versions := d.versions - {v}))
    case Crash => s.(pc := Idle)
    case Rollback(symlinkWorks) =>
      var back := d.stamp.value;
      if back !in d.versions then s.(disk := d.(stamp := None))
      else
        var symlink := (d.current.link.Some? || d.current.file.None?) && symlinkWorks;
        s.(disk := d.(current := Write(d.current, back, symlink)), pc := RollTidy(back, symlink))
    case Expire => s.(disk := d.(stamp := None))
  }

  predicate Runs(s: State, steps: seq<Step>)
    decreases |steps|
  {
    steps == [] || (Enabled(s, steps[0]) && Runs(Do(s, steps[0]), steps[1..]))
  }

  function After(s: State, steps: seq<Step>): (r: State)
    requires Runs(s, steps)
    decreases |steps|
  {
    if steps == [] then s else After(Do(s, steps[0]), steps[1..])
  }

  // ----------------------------------------------------------------- invariant

  /** A complete version that is the first install or passed its self-check. */
  predicate Good(d: Disk, v: Version) { v in d.versions && d.versions[v] == Whole(true) }

  predicate CurrentOk(d: Disk) {
    if d.current.link.Some? then Good(d, d.current.link.value)
    else d.current.file.Some? && d.current.file.value != "" && Good(d, d.current.file.value)
  }

  /** What holds at each point of an attempt or rollback. */
  predicate PcOk(s: State) {
    var d := s.disk;
    match s.pc
    case Idle => true
    case Staging(live, target) => target != live && target != "" && Read(d.current) == Some(live)
    case Clearing(live, target) => target != live && target != "" && Read(d.current) == Some(live)
    case Moving(live, target) =>
      target != live && target != "" && Read(d.current) == Some(live) && target !in d.versions
    case Checking(live, target) => target != live && target != "" && Read(d.current) == Some(live)
    case Discarding(live, target) => target != live && target != "" && Read(d.current) == Some(live)
    case FlipCurrent(live, target) =>
      target != live && target != "" && Read(d.current) == Some(live) && Good(d, target)
    case TidyCurrent(live, target, was, symlink) =>
      && Flipped(d, live, target) && was == Some(live)
      && (if symlink then d.current.link == Some(target) else d.current.link.None?)
    case FlipPrevious(live, target, was, _) => Flipped(d, live, target) && was == Some(live)
    case TidyPrevious(live, target, symlink) =>
      && Flipped(d, live, target)
      && (if symlink then d.previous.link == Some(live) else d.previous.file == Some(live))
    case Stamping(live, target) => Flipped(d, live, target) && Read(d.previous) == Some(live)
    case Planning(live, target) => Finished(d, live, target)
    case Collecting(live, target, keepers) => Finished(d, live, target) && live in keepers && target in keepers
    case Returned(live, target) => Finished(d, live, target)
    case RollTidy(back, symlink) =>
      Good(d, back) && back != "" && (if symlink then d.current.link == Some(back) else d.current.file == Some(back))
    case RollPrevious(back) => Good(d, back)
    case RollStamp(back) => Good(d, back)
  }

  predicate Flipped(d: Disk, live: Version, target: Version) {
    target != live && target != "" && live != "" && Good(d, live) && Good(d, target) && Read(d.current) == Some(target)
  }

  /** What a finished attempt promises. */
  predicate Finished(d: Disk, live: Version, target: Version) {
    Flipped(d, live, target) && Read(d.previous) == Some(live) && d.stamp == Some(live)
  }

  predicate Inv(s: State) {
    CurrentOk(s.disk) && PcOk(s) && (s.disk.stamp.Some? ==> s.disk.stamp.value != "")
    && (s.disk.current.link.Some? ==> s.disk.current.link.value != "")
  }

  // Before the flip an attempt touches only its target, which is not live.
  lemma InstallKeepsInv(s: State)
    requires Inv(s) && (s.pc.Staging? || s.pc.Clearing? || s.pc.Moving? || s.pc.Discarding?)
    ensures Inv(DoGo(s))
  {
  }

  lemma FlipKeepsInv(s: State)
    requires Inv(s) && (s.pc.FlipCurrent? || s.pc.TidyCurrent?)
    ensures Inv(DoGo(s))
  {
  }

  lemma DemoteKeepsInv(s: State)
    requires Inv(s) && (s.pc.FlipPrevious? || s.pc.TidyPrevious? || s.pc.Stamping?)
    ensures Inv(DoGo(s))
  {
  }

  lemma RollKeepsInv(s: State)
    requires Inv(s) && (s.pc.RollTidy? || s.pc.RollPrevious? || s.pc.RollStamp? || s.pc.Collecting? || s.pc.Returned?)
    ensures Inv(DoGo(s))
  {
  }

  /** The supervisor checks only that the stamped directory exists; this is what it needs. */
  predicate RollbackIsSafe(d: Disk) {
    d.stamp.Some? && d.stamp.value in d.versions ==> Good(d, d.stamp.value)
  }

  lemma StepKeepsInv(s: State, step: Step)
    requires Inv(s) && Enabled(s, step) && (step.Rollback? ==> RollbackIsSafe(s.disk))
    ensures Inv(Do(s, step))
  {
    match step
    case Go =>
      if s.pc.Staging? || s.pc.Clearing? || s.pc.Moving? || s.pc.Discarding? {
        InstallKeepsInv(s);
      } else if s.pc.FlipCurrent? || s.pc.TidyCurrent? {
        FlipKeepsInv(s);
      } else if s.pc.FlipPrevious? || s.pc.TidyPrevious? || s.pc.Stamping? {
        DemoteKeepsInv(s);
      } else {
        RollKeepsInv(s);
      }
    case _ =>
  }

  // ------------------------------------------------- theorems, without rollback

  predicate NoRollback(steps: seq<Step>) {
    forall i :: 0 <= i < |steps| ==> !steps[i].Rollback?
  }

  lemma {:induction false} RunKeepsInv(s: State, steps: seq<Step>)
    requires Inv(s) && Runs(s, steps) && NoRollback(steps)
    ensures Inv(After(s, steps))
    decreases |steps|
  {
    if steps != [] {
      assert !steps[0].Rollback?;
      StepKeepsInv(s, steps[0]);
      assert forall i :: 0 <= i < |steps[1..]| ==> steps[1..][i] == steps[i + 1];
      RunKeepsInv(Do(s, steps[0]), steps[1..]);
    }
  }

  /** A sane install: no attempt is running, and `current` leads to a good version.
      A symlink that dangles in front of a CURRENT file is not sane. */
  predicate Sane(s: State) { s.pc.Idle? && Inv(s) }

  /** In every run of update attempts, crashing anywhere and any number of times,
      `current` resolves to a complete version that is the first install or passed
      its self-check, and the pointer's name agrees with where it leads. */
  lemma {:induction false} CurrentAlwaysGood(s: State, steps: seq<Step>)
    requires Sane(s) && Runs(s, steps) && NoRollback(steps)
    ensures
      var d := After(s, steps).disk;
      var v := Resolve(d.versions, d.current);
      v.Some? && Good(d, v.value) && Read(d.current) == v
  {
    RunKeepsInv(s, steps);
  }

  /** An attempt that returns True leaves `current` at the new version, `previous`
      and the stamp naming the version that was live, and both directories intact. */
  lemma {:induction false} FinishedAttempt(s: State, steps: seq<Step>)
    requires Sane(s) && Runs(s, steps) && NoRollback(steps)
    ensures
      var r := After(s, steps);
      r.pc.Returned? ==>
        && Resolve(r.disk.versions, r.disk.current) == Some(r.pc.target)
        && Resolve(r.disk.versions, r.disk.previous) == Some(r.pc.live)
        && r.disk.stamp == Some(r.pc.live) && r.pc.live != r.pc.target
        && Good(r.disk, r.pc.target) && Good(r.disk, r.pc.live)
  {
    RunKeepsInv(s, steps);
  }

  /** While an attempt runs, `live` stays the version `current` resolved to when it began. */
  lemma {:induction false} AttemptRemembersLive(s: State, release: Version, steps: seq<Step>)
    requires Sane(s) && Enabled(s, Begin(release)) && Do(s, Begin(release)).pc.Staging?
    requires Runs(Do(s, Begin(release)), steps)
    requires forall i :: 0 <= i < |steps| ==> !steps[i].Crash? && !steps[i].Begin? && !steps[i].Rollback?
    ensures
      var r := After(Do(s, Begin(release)), steps);
      r.pc.Idle? || (OnAttempt(r.pc) && Some(r.pc.live) == Resolve(s.disk.versions, s.disk.current) && r.pc.target == release)
  {
    KeepsAttempt(Do(s, Begin(release)), steps);
  }

  predicate OnAttempt(pc: Pc) { !pc.Idle? && !pc.RollTidy? && !pc.RollPrevious? && !pc.RollStamp? }

  lemma {:induction false} KeepsAttempt(s: State, steps: seq<Step>)
    requires Runs(s, steps) && (s.pc.Idle? || OnAttempt(s.pc))
    requires forall i :: 0 <= i < |steps| ==> !steps[i].Crash? && !steps[i].Begin? && !steps[i].Rollback?
    ensures
      var r := After(s, steps);
      r.pc.Idle? || (OnAttempt(s.pc) && OnAttempt(r.pc) && r.pc.live == s.pc.live && r.pc.target == s.pc.target)
    decreases |steps|
  {
    if steps != [] {
      assert forall i :: 0 <= i < |steps[1..]| ==> steps[1..][i] == steps[i + 1];
      assert !steps[0].Crash? && !steps[0].Begin? && !steps[0].Rollback?;
      KeepsAttempt(Do(s, steps[0]), steps[1..]);
    }
  }

  // ---------------------------------------------------- theorems, with rollback

  /** A rollback keeps `current` good exactly when the stamped version is gone or good. */
  lemma RollbackSafeIff(s: State, symlinkWorks: bool)
    requires Sane(s) && Enabled(s, Rollback(symlinkWorks))
    ensures
      var r := FinishPointer(Do(s, Rollback(symlinkWorks)));
      CurrentOk(r.disk) <==> RollbackIsSafe(s.disk)
  {
  }

  // The rollback's second action, when there is one.
  function FinishPointer(s: State): (r: State) {
    if s.pc.RollTidy? then DoGo(s) else s
  }

  /** No attempt installs the version the stamp names: what keeps rollback safe. */
  predicate SparesStamp(s: State, steps: seq<Step>)
    requires Runs(s, steps)
    decreases |steps|
  {
    steps == [] ||
    (!(steps[0].Begin? && s.disk.stamp == Some(steps[0].release)) && SparesStamp(Do(s, steps[0]), steps[1..]))
  }

  predicate StampOk(s: State) {
    && (s.disk.stamp.Some? ==> Good(s.disk, s.disk.stamp.value))
    && ((s.pc.Staging? || s.pc.Clearing? || s.pc.Moving? || s.pc.Checking? || s.pc.Discarding?) ==>
          s.disk.stamp != Some(s.pc.target))
  }

  lemma StepKeepsStamp(s: State, step: Step)
    requires Inv(s) && StampOk(s) && Enabled(s, step)
    requires !(step.Begin? && s.disk.stamp == Some(step.release))
    ensures StampOk(Do(s, step))
  {
    if step.Go? {
      GoKeepsStamp(s);
    }
  }

  lemma GoKeepsStamp(s: State)
    requires Inv(s) && StampOk(s) && Enabled(s, Go)
    ensures StampOk(DoGo(s))
  {
  }

  /** With rollbacks at any time, `current` stays good and a rollback always lands on
      a good version, as long as no attempt reinstalls the stamped version. */
  lemma {:induction false} RollbackAlwaysSafe(s: State, steps: seq<Step>)
    requires Inv(s) && StampOk(s) && Runs(s, steps) && SparesStamp(s, steps)
    ensures
      var r := After(s, steps);
      var v := Resolve(r.disk.versions, r.disk.current);
      && Inv(r) && StampOk(r)
      && v.Some? && Good(r.disk, v.value)
      && (r.disk.stamp.Some? ==> r.disk.stamp.value in r.disk.versions && RollbackIsSafe(r.disk))
    decreases |steps|
  {
    if steps != [] {
      StepKeepsInv(s, steps[0]);
      StepKeepsStamp(s, steps[0]);
      RollbackAlwaysSafe(Do(s, steps[0]), steps[1..]);
    }
  }

  /** Without that condition a rollback can land on a torn version, from every sane state whose stamped
      version is in place and not live: an attempt to install it stops while it removes the old directory. */
  lemma {:induction false} ReinstallCanTear(s: State) returns (steps: seq<Step>)
    requires Sane(s) && s.disk.stamp.Some? && s.disk.stamp.value in s.disk.versions
    requires Resolve(s.disk.versions, s.disk.current) != s.disk.stamp
    ensures Enabled(s, Begin(s.disk.stamp.value)) && Runs(Do(s, Begin(s.disk.stamp.value)), steps)
    ensures SparesStamp(Do(s, Begin(s.disk.stamp.value)), steps)
    ensures
      var d := After(Do(s, Begin(s.disk.stamp.value)), steps).disk;
      var v := s.disk.stamp.value;
      Resolve(d.versions, d.current) == Some(v) && d.versions[v] == Torn && !CurrentOk(d)
  {
    var v := s.disk.stamp.value;
    var s1 := Do(s, Begin(v));
    var s2 := Do(s1, Go);
    var s3 := Do(s2, Tear(v));
    var s4 := Do(s3, Crash);
    var s5 := Do(s4, Rollback(true));
    steps := [Go, Tear(v), Crash, Rollback(true)];
    assert SparingRun(s5, []);
    SparingCons(s4, Rollback(true), []);
    SparingCons(s3, Crash, [Rollback(true)]);
    SparingCons(s2, Tear(v), [Crash, Rollback(true)]);
    SparingCons(s1, Go, [Tear(v), Crash, Rollback(true)]);
  }

  predicate SparingRun(s: State, steps: seq<Step>) { Runs(s, steps) && SparesStamp(s, steps) }

  lemma {:induction false} SparingCons(s: State, step: Step, rest: seq<Step>)
    requires Enabled(s, step) && !step.Begin? && SparingRun(Do(s, step), rest)
    ensures SparingRun(s, [step] + rest) && After(s, [step] + rest) == After(Do(s, step), rest)
  {
    assert ([step] + rest)[1..] == rest;
  }

  /** Some run that reinstalls no stamped version breaks `current`. */
  ghost predicate CanBreak(s: State) {
    exists steps :: SparingRun(s, steps) && !CurrentOk(After(s, steps).disk)
  }

  /** Which attempts are dangerous: beginning to install a release can lead, by crashes and rollbacks, to
      a `current` that is not good if and only if it is the stamped version and not the live one. */
  lemma {:induction false} AttemptBreaksIff(s: State, release: Version)
    requires Sane(s) && StampOk(s) && Enabled(s, Begin(release))
    ensures CanBreak(Do(s, Begin(release))) <==>
            s.disk.stamp == Some(release) && Resolve(s.disk.versions, s.disk.current) != Some(release)
  {
    if s.disk.stamp == Some(release) && Resolve(s.disk.versions, s.disk.current) != Some(release) {
      var steps := ReinstallCanTear(s);
      assert SparingRun(Do(s, Begin(release)), steps);
    } else {
      var begun := Do(s, Begin(release));
      StepKeepsInv(s, Begin(release));
      if s.disk.stamp != Some(release) {
        StepKeepsStamp(s, Begin(release));
      }
      forall steps | SparingRun(begun, steps) ensures CurrentOk(After(begun, steps).disk) {
        RollbackAlwaysSafe(begun, steps);
      }
    }
  }

  /** One such run: after an update from 1 to 2, an attempt to go back to 1. */
  lemma {:induction false} RollbackCanLandOnTornVersion() returns (s: State, steps: seq<Step>)
    ensures Sane(s) && StampOk(s) && Runs(s, steps) && !SparesStamp(s, steps)
    ensures
      var d := After(s, steps).disk;
      Resolve(d.versions, d.current) == Some("1") && d.versions["1"] == Torn
  {
    s := State(Disk(map["1" := Whole(true), "2" := Whole(true)], Pointer(Some("2"), None), Pointer(Some("1"), None),
                    Some("1")), Idle, true);
    var rest := ReinstallCanTear(s);
    steps := [Begin("1")] + rest;
    assert steps[1..] == rest;
  }
}
