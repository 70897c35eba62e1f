/**
 Lock order of `AgentRuntime` (src/link/app/runtime.py:92-108).

 A thread runs a program built from `with lock:` blocks, sequencing, branching
 and looping.  Locks made with `threading.RLock` are re-entrant.  The discipline
 `Ranked` asks that a lock is taken only when it outranks every lock held, or is
 a re-entrant lock already held.  Any number of threads running ranked programs
 never wait on each other in a cycle, and some thread can always move.  Every
 operation of the runtime is then shown to be ranked.
 */
module LockOrder {

  datatype Lock =
    | DownloadLock(name: string)  // _download_locks[name]
    | OpsLock                     // _pipeline_ops_lock
    | StateLock                   // lock
    | TableGuard                  // _download_locks_guard
    | PendingLock                 // _pending_reports_lock

  predicate Reentrant(l: Lock) { l.OpsLock? || l.StateLock? }

  function Rank(l: Lock): (r: nat) {
    match l
    case DownloadLock(_) => 1
    case OpsLock => 2
    case StateLock => 3
    case TableGuard => 4
    case PendingLock => 4
  }

  datatype Prog =
    | Act                              // code that takes none of these locks
    | With(lock: Lock, body: Prog)
    | Seq(first: Prog, second: Prog)
    | Either(left: Prog, right: Prog)
    | Repeat(body: Prog)

  // What a thread still has to do: code to run, and locks to give back.
  datatype Item = Run(p: Prog) | Unlock(lock: Lock)

  type Todo = seq<Item>
  type System = map<nat, Todo>

  /** The locks a thread holds are those its pending `with` exits give back. */
  function Held(todo: Todo): (r: set<Lock>) {
    set i | 0 <= i < |todo| && todo[i].Unlock? :: todo[i].lock
  }

  predicate Free(sys: System, t: nat, l: Lock)
    requires t in sys
  {
    && (forall u :: u in sys && u != t ==> l !in Held(sys[u]))
    && (Reentrant(l) || l !in Held(sys[t]))
  }

  predicate Blocked(sys: System, t: nat) {
    t in sys && sys[t] != [] && sys[t][0].Run? && sys[t][0].p.With? && !Free(sys, t, sys[t][0].p.lock)
  }

  function Wanted(sys: System, t: nat): (l: Lock)
    requires Blocked(sys, t)
  {
    sys[t][0].p.lock
  }

  /** `t` wants a lock that `u` holds; `u` may be `t` itself for a plain Lock. */
  predicate WaitsFor(sys: System, t: nat, u: nat) {
    && Blocked(sys, t) && u in sys
    && Wanted(sys, t) in Held(sys[u])
    && (u == t ==> !Reentrant(Wanted(sys, t)))
  }

  // How a step resolves a branch, a loop, or an early exit of the code at the
  // head: `Skip` is a return or an exception, which runs no more code but still
  // gives every lock back.
  datatype Choice = Enter | Other | Skip

  function Advance(todo: Todo, c: Choice): (r: Todo)
    requires todo != []
  {
    var rest := todo[1..];
    match todo[0]
    case Unlock(_) => rest
    case Run(p) =>
      if c.Skip? then rest else
      match p
      case Act => rest
      case With(l, b) => [Run(b), Unlock(l)] + rest
      case Seq(a, b) => [Run(a), Run(b)] + rest
      case Either(a, b) => [Run(if c.Enter? then a else b)] + rest
      case Repeat(b) => if c.Enter? then [Run(b), Run(p)] + rest else rest
  }

  // A step of thread `t`, or the arrival of a new thread running `p`.
  datatype Step = Move(t: nat, c: Choice) | Spawn(t: nat, p: Prog)

  predicate Enabled(sys: System, step: Step) {
    match step
    case Move(t, c) => t in sys && sys[t] != [] && !Blocked(sys, t)
    case Spawn(t, _) => t !in sys
  }

  function Do(sys: System, step: Step): (r: System)
    requires Enabled(sys, step)
  {
    match step
    case Move(t, c) => sys[t := Advance(sys[t], c)]
    case Spawn(t, p) => sys[t := [Run(p)]]
  }

  predicate Runs(sys: System, steps: seq<Step>)
    decreases |steps|
  {
    steps == [] || (Enabled(sys, steps[0]) && Runs(Do(sys, steps[0]), steps[1..]))
  }

  function After(sys: System, steps: seq<Step>): (r: System)
    requires Runs(sys, steps)
    decreases |steps|
  {
    if steps == [] then sys else After(Do(sys, steps[0]), steps[1..])
  }

  /** The discipline: take a lock only above everything held, or re-enter. */
  predicate Ranked(p: Prog, held: set<Lock>) {
    match p
    case Act => true
    case With(l, b) =>
      && ((Reentrant(l) && l in held) || forall h :: h in held ==> Rank(h) < Rank(l))
      && Ranked(b, held + {l})
    case Seq(a, b) => Ranked(a, held) && Ranked(b, held)
    case Either(a, b) => Ranked(a, held) && Ranked(b, held)
    case Repeat(b) => Ranked(b, held)
  }

  /** Every thread that a run starts follows the discipline. */
  predicate AllRanked(steps: seq<Step>) {
    forall i :: 0 <= i < |steps| && steps[i].Spawn? ==> Ranked(steps[i].p, {})
  }

  // ---------------------------------------------------------------- soundness

  ghost predicate ThreadOk(todo: Todo) {
    forall i :: 0 <= i < |todo| && todo[i].Run? ==> Ranked(todo[i].p, Held(todo[i + 1..]))
  }

  ghost predicate Exclusive(sys: System) {
    forall t, u :: t in sys && u in sys && t != u ==> Held(sys[t]) !! Held(sys[u])
  }

  ghost predicate Inv(sys: System) {
    && (forall t :: t in sys ==> ThreadOk(sys[t]))
    && Exclusive(sys)
  }

  lemma {:induction false} HeldOfCons(x: Item, rest: Todo)
    ensures Held([x] + rest) == (if x.Unlock? then {x.lock} else {}) + Held(rest)
  {
    var all := [x] + rest;
    assert forall i :: 0 <= i < |rest| ==> all[i + 1] == rest[i];
    forall l | l in Held(rest) ensures l in Held(all) {
      var i :| 0 <= i < |rest| && rest[i].Unlock? && rest[i].lock == l;
      assert all[i + 1].Unlock?;
    }
    if x.Unlock? {
      assert all[0].Unlock?;
    }
  }

  lemma {:induction false} ThreadOkCons(x: Item, rest: Todo)
    requires ThreadOk(rest) && (x.Run? ==> Ranked(x.p, Held(rest)))
    ensures ThreadOk([x] + rest)
  {
    var all := [x] + rest;
    forall i | 0 <= i < |all| && all[i].Run? ensures Ranked(all[i].p, Held(all[i + 1..])) {
      if i == 0 {
        assert all[1..] == rest;
      } else {
        assert all[i + 1..] == rest[i..] && rest[i - 1] == all[i];
        assert rest[(i - 1) + 1..] == rest[i..];
      }
    }
  }

  lemma {:induction false} ThreadOkTail(todo: Todo)
    requires ThreadOk(todo) && todo != []
    ensures ThreadOk(todo[1..])
    ensures todo[0].Run? ==> Ranked(todo[0].p, Held(todo[1..]))
    ensures Held(todo) == (if todo[0].Unlock? then {todo[0].lock} else {}) + Held(todo[1..])
  {
    var rest := todo[1..];
    forall i | 0 <= i < |rest| && rest[i].Run? ensures Ranked(rest[i].p, Held(rest[i + 1..])) {
      assert todo[i + 1].Run? && todo[(i + 1) + 1..] == rest[i + 1..];
    }
    HeldOfCons(todo[0], rest);
    assert todo == [todo[0]] + rest;
  }

  lemma {:induction false} AdvanceKeepsThreadOk(todo: Todo, c: Choice)
    requires ThreadOk(todo) && todo != []
    ensures ThreadOk(Advance(todo, c))
  {
    var rest := todo[1..];
    ThreadOkTail(todo);
    if todo[0].Run? && !c.Skip? {
      match todo[0].p
      case Act =>
      case With(l, b) =>
        HeldOfCons(Unlock(l), rest);
        ThreadOkCons(Unlock(l), rest);
        assert {l} + Held(rest) == Held(rest) + {l};
        ThreadOkCons(Run(b), [Unlock(l)] + rest);
        assert [Run(b), Unlock(l)] + rest == [Run(b)] + ([Unlock(l)] + rest);
      case Seq(a, b) =>
        ThreadOkTwo(a, b, rest);
      case Either(a, b) =>
        ThreadOkCons(Run(if c.Enter? then a else b), rest);
      case Repeat(b) =>
        ThreadOkTwo(b, Repeat(b), rest);
    }
  }

  lemma {:induction false} ThreadOkTwo(a: Prog, b: Prog, rest: Todo)
    requires ThreadOk(rest) && Ranked(a, Held(rest)) && Ranked(b, Held(rest))
    ensures ThreadOk([Run(a), Run(b)] + rest)
  {
    HeldOfCons(Run(b), rest);
    assert Held([Run(b)] + rest) == Held(rest);
    ThreadOkCons(Run(b), rest);
    ThreadOkCons(Run(a), [Run(b)] + rest);
    assert [Run(a), Run(b)] + rest == [Run(a)] + ([Run(b)] + rest);
  }

  lemma {:induction false} AdvanceTakesOnlyTheLock(todo: Todo, c: Choice)
    requires todo != []
    ensures Held(Advance(todo, c)) <= Held(todo) + (if todo[0].Run? && todo[0].p.With? then {todo[0].p.lock} else {})
  {
    var rest := todo[1..];
    HeldOfCons(todo[0], rest);
    assert todo == [todo[0]] + rest;
    if todo[0].Run? && !c.Skip? {
      match todo[0].p
      case Act =>
      case With(l, b) =>
        HeldOfCons(Unlock(l), rest);
        HeldOfCons(Run(b), [Unlock(l)] + rest);
        assert [Run(b), Unlock(l)] + rest == [Run(b)] + ([Unlock(l)] + rest);
      case Seq(a, b) =>
        HeldOfTwo(a, b, rest);
      case Either(a, b) =>
        HeldOfCons(Run(if c.Enter? then a else b), rest);
      case Repeat(b) =>
        HeldOfTwo(b, Repeat(b), rest);
    }
  }

  lemma {:induction false} HeldOfTwo(a: Prog, b: Prog, rest: Todo)
    ensures Held([Run(a), Run(b)] + rest) == Held(rest)
  {
    HeldOfCons(Run(b), rest);
    HeldOfCons(Run(a), [Run(b)] + rest);
    assert [Run(a), Run(b)] + rest == [Run(a)] + ([Run(b)] + rest);
  }

  lemma MoveKeepsInv(sys: System, t: nat, c: Choice)
    requires Inv(sys) && Enabled(sys, Move(t, c))
    ensures Inv(Do(sys, Move(t, c)))
  {
    var r := Do(sys, Move(t, c));
    AdvanceKeepsThreadOk(sys[t], c);
    AdvanceTakesOnlyTheLock(sys[t], c);
    forall u | u in sys && u != t ensures Held(r[t]) !! Held(r[u]) {
      assert Held(sys[t]) !! Held(sys[u]);
    }
  }

  lemma {:induction false} SpawnKeepsInv(sys: System, t: nat, p: Prog)
    requires Inv(sys) && Enabled(sys, Spawn(t, p)) && Ranked(p, {})
    ensures Inv(Do(sys, Spawn(t, p)))
  {
    assert Held([]) == {};
    HeldOfCons(Run(p), []);
    ThreadOkCons(Run(p), []);
    assert [Run(p)] + [] == [Run(p)];
  }

  lemma {:induction false} RunKeepsInv(sys: System, steps: seq<Step>)
    requires Inv(sys) && Runs(sys, steps) && AllRanked(steps)
    ensures Inv(After(sys, steps))
    decreases |steps|
  {
    if steps != [] {
      match steps[0] {
        case Move(t, c) => MoveKeepsInv(sys, t, c);
        case Spawn(t, p) => SpawnKeepsInv(sys, t, p);
      }
      assert forall i :: 0 <= i < |steps[1..]| ==> steps[1..][i] == steps[i + 1];
      RunKeepsInv(Do(sys, steps[0]), steps[1..]);
    }
  }

  /** Whoever waits, waits for a lock above everything it holds. */
  lemma WaitersHoldLess(sys: System, t: nat, h: Lock)
    requires Inv(sys) && Blocked(sys, t) && h in Held(sys[t])
    ensures Rank(h) < Rank(Wanted(sys, t))
  {
    ThreadOkTail(sys[t]);
    // Re-entry never blocks: no second thread can hold the lock as well.
  }

  lemma {:induction false} RanksRise(sys: System, cycle: seq<nat>, i: nat)
    requires Inv(sys) && i < |cycle|
    requires forall k :: 0 <= k < |cycle| ==> Blocked(sys, cycle[k])
    requires forall k :: 0 <= k < |cycle| - 1 ==> WaitsFor(sys, cycle[k], cycle[k + 1])
    ensures Blocked(sys, cycle[0]) && Blocked(sys, cycle[i])
    ensures Rank(Wanted(sys, cycle[0])) <= Rank(Wanted(sys, cycle[i]))
  {
    if i > 0 {
      RanksRise(sys, cycle, i - 1);
      assert WaitsFor(sys, cycle[i - 1], cycle[(i - 1) + 1]);
      WaitersHoldLess(sys, cycle[i], Wanted(sys, cycle[i - 1]));
    }
  }

  /** A ring of threads, each waiting for the next and the last for the first. */
  ghost predicate WaitCycle(sys: System, cycle: seq<nat>) {
    && cycle != []
    && (forall k :: 0 <= k < |cycle| - 1 ==> WaitsFor(sys, cycle[k], cycle[k + 1]))
    && WaitsFor(sys, cycle[|cycle| - 1], cycle[0])
  }

  /** No reachable state of ranked threads contains a wait cycle, of any length. */
  lemma {:induction false} NoWaitCycle(steps: seq<Step>, cycle: seq<nat>)
    requires Runs(map[], steps) && AllRanked(steps)
    ensures !WaitCycle(After(map[], steps), cycle)
  {
    var sys := After(map[], steps);
    RunKeepsInv(map[], steps);
    if WaitCycle(sys, cycle) {
      var last := |cycle| - 1;
      forall k | 0 <= k < |cycle| ensures Blocked(sys, cycle[k]) {
        assert k < last ==> WaitsFor(sys, cycle[k], cycle[k + 1]);
      }
      RanksRise(sys, cycle, last);
      WaitersHoldLess(sys, cycle[0], Wanted(sys, cycle[last]));
      assert false;
    }
  }

  ghost predicate AllStuck(sys: System) {
    forall t :: t in sys && sys[t] != [] ==> Blocked(sys, t)
  }

  lemma StuckClimbs(sys: System, t: nat)
    requires Inv(sys) && AllStuck(sys) && Blocked(sys, t)
    ensures false
    decreases 4 - Rank(Wanted(sys, t))
  {
    var l := Wanted(sys, t);
    var u :| u in sys && l in Held(sys[u]);
    assert sys[u] != [];
    WaitersHoldLess(sys, u, l);
    StuckClimbs(sys, u);
  }

  /** As long as a thread has work left, some thread can take a step. */
  lemma {:induction false} SomeThreadCanMove(steps: seq<Step>, t: nat)
    requires Runs(map[], steps) && AllRanked(steps)
    requires t in After(map[], steps) && After(map[], steps)[t] != []
    ensures exists u :: Enabled(After(map[], steps), Move(u, Enter))
  {
    var sys := After(map[], steps);
    RunKeepsInv(map[], steps);
    if forall u :: !Enabled(sys, Move(u, Enter)) {
      assert forall u :: u in sys && sys[u] != [] ==> !Enabled(sys, Move(u, Enter));
      StuckClimbs(sys, t);
    }
  }

  // ------------------------------------------------- the runtime's operations

  const UNDER_STATE := With(StateLock, Act)

  const STOP_PIPELINE := With(OpsLock, Seq(UNDER_STATE, Seq(Act, UNDER_STATE)))

  const START_PIPELINE :=
    With(OpsLock, Seq(UNDER_STATE, Seq(Either(STOP_PIPELINE, Act), Seq(Act, Seq(UNDER_STATE, Act)))))

  const APPLY_CONFIG :=
    With(OpsLock, Seq(Seq(Repeat(STOP_PIPELINE), Repeat(Either(START_PIPELINE, STOP_PIPELINE))), UNDER_STATE))

  const UPDATE_PIPELINE := With(OpsLock, Seq(UNDER_STATE, Either(START_PIPELINE, UNDER_STATE)))

  const DOWNLOAD_AND_PUBLISH := Seq(Act, Seq(UNDER_STATE, Seq(Repeat(Act), UNDER_STATE)))

  datatype Operation =
    | Deploy
    | Worker(modelName: string)
    | CancelDeploy
    | Start
    | StartServing
    | Stop
    | Update
    | Reconfigure
    | Uninstall
    | Snapshot
    | Recover
    | FlushReports
    | Shutdown

  function Code(op: Operation): (p: Prog) {
    match op
    case Deploy => UNDER_STATE
    case Worker(name) =>
      Seq(With(TableGuard, Act),
          Seq(With(DownloadLock(name), Either(Act, DOWNLOAD_AND_PUBLISH)),
              Seq(With(OpsLock, UNDER_STATE), UNDER_STATE)))
    case CancelDeploy => UNDER_STATE
    case Start => START_PIPELINE
    case StartServing => Seq(UNDER_STATE, START_PIPELINE)
    case Stop => STOP_PIPELINE
    case Update => UPDATE_PIPELINE
    case Reconfigure => Seq(APPLY_CONFIG, Either(Act, APPLY_CONFIG))
    case Uninstall => Seq(Either(STOP_PIPELINE, Act), Seq(UNDER_STATE, Either(Act, With(PendingLock, Act))))
    case Snapshot => UNDER_STATE
    case Recover => Seq(UNDER_STATE, Repeat(START_PIPELINE))
    case FlushReports => With(PendingLock, Act)
    case Shutdown => Seq(UNDER_STATE, Seq(Act, UNDER_STATE))
  }

  // Below, `held` is what the caller already holds: nothing, or the ops lock.
  lemma {:induction false} StopIsRanked(held: set<Lock>)
    requires held <= {OpsLock}
    ensures Ranked(STOP_PIPELINE, held)
  {
    var inner := held + {OpsLock};
    assert Ranked(UNDER_STATE, inner);
    assert Ranked(Seq(Act, UNDER_STATE), inner);
    assert Ranked(STOP_PIPELINE.body, inner);
  }

  lemma {:induction false} StartIsRanked(held: set<Lock>)
    requires held <= {OpsLock}
    ensures Ranked(START_PIPELINE, held)
  {
    var inner := held + {OpsLock};
    StopIsRanked(inner);
    assert Ranked(UNDER_STATE, inner);
    assert Ranked(Seq(UNDER_STATE, Act), inner);
    assert Ranked(Seq(Act, Seq(UNDER_STATE, Act)), inner);
    assert Ranked(Either(STOP_PIPELINE, Act), inner);
    assert Ranked(START_PIPELINE.body.second, inner);
    assert Ranked(START_PIPELINE.body, inner);
  }

  lemma ReconfigureIsRanked()
    ensures Ranked(APPLY_CONFIG, {}) && Ranked(UPDATE_PIPELINE, {})
  {
    var inner := {} + {OpsLock};
    StopIsRanked(inner);
    StartIsRanked(inner);
    assert Ranked(UNDER_STATE, inner);
    assert Ranked(Repeat(STOP_PIPELINE), inner);
    assert Ranked(Either(START_PIPELINE, STOP_PIPELINE), inner);
    assert Ranked(Repeat(Either(START_PIPELINE, STOP_PIPELINE)), inner);
    assert Ranked(APPLY_CONFIG.body.first, inner);
    assert Ranked(APPLY_CONFIG.body, inner);
    assert Ranked(Either(START_PIPELINE, UNDER_STATE), inner);
    assert Ranked(UPDATE_PIPELINE.body, inner);
  }

  lemma {:induction false} WorkerIsRanked(name: string)
    ensures Ranked(Code(Worker(name)), {})
  {
    var inner := {} + {DownloadLock(name)};
    assert Ranked(UNDER_STATE, inner);
    assert Ranked(Seq(Repeat(Act), UNDER_STATE), inner);
    assert Ranked(Seq(UNDER_STATE, Seq(Repeat(Act), UNDER_STATE)), inner);
    assert Ranked(DOWNLOAD_AND_PUBLISH, inner);
    assert Ranked(Either(Act, DOWNLOAD_AND_PUBLISH), inner);
    assert Ranked(With(DownloadLock(name), Either(Act, DOWNLOAD_AND_PUBLISH)), {});
    assert Ranked(UNDER_STATE, {} + {OpsLock});
    assert Ranked(With(OpsLock, UNDER_STATE), {});
    assert Ranked(Seq(With(OpsLock, UNDER_STATE), UNDER_STATE), {});
    assert Ranked(Code(Worker(name)).second, {});
  }

  /** Every operation of the runtime follows the lock order. */
  lemma OperationsAreRanked(op: Operation)
    ensures Ranked(Code(op), {})
  {
    assert Ranked(UNDER_STATE, {});
    StopIsRanked({});
    StartIsRanked({});
    ReconfigureIsRanked();
    match op
    case Worker(name) => WorkerIsRanked(name);
    case _ =>
  }

  ghost predicate IsOperation(p: Prog) {
    exists op: Operation :: p == Code(op)
  }

  /** Any number of threads handling commands, deploying, reconfiguring, recovering,
      serving snapshots and shutting down at once never wait on each other in a
      cycle, and never all wait. */
  lemma {:induction false} RuntimeNeverDeadlocks(steps: seq<Step>, cycle: seq<nat>, t: nat)
    requires Runs(map[], steps)
    requires forall i :: 0 <= i < |steps| && steps[i].Spawn? ==> IsOperation(steps[i].p)
    ensures !WaitCycle(After(map[], steps), cycle)
    ensures t in After(map[], steps) && After(map[], steps)[t] != [] ==>
              exists u :: Enabled(After(map[], steps), Move(u, Enter))
  {
    forall i | 0 <= i < |steps| && steps[i].Spawn? ensures Ranked(steps[i].p, {}) {
      var op :| steps[i].p == Code(op);
      OperationsAreRanked(op);
    }
    NoWaitCycle(steps, cycle);
    if t in After(map[], steps) && After(map[], steps)[t] != [] {
      SomeThreadCanMove(steps, t);
    }
  }
}
