/**
 What the steps of `LockOrder` mean: a thread that runs a program takes and gives back locks exactly as the
 nesting of its `with` blocks says; out of order, such threads do deadlock; and which locks the operations of the
 runtime nest (src/link/app/runtime.py:92-108, 438-922).
 */
module LockMeaning {
  import opened LockOrder

  datatype Event = Took(lock: Lock) | Gave(lock: Lock)

  type Trace = seq<Event>

  /** The traces of a program run to its end: by the blocks, not by the steps. */
  ghost predicate Performs(p: Prog, tr: Trace)
    decreases p, |tr|, 1
  {
    match p
    case Act => tr == []
    case With(l, b) => |tr| >= 2 && tr[0] == Took(l) && tr[|tr| - 1] == Gave(l) && Performs(b, tr[1..|tr| - 1])
    case Seq(_, _) => exists i: nat :: OneThenOther(p, tr, i)
    case Either(a, b) => Performs(a, tr) || Performs(b, tr)
    case Repeat(_) => tr == [] || exists i: nat :: OnceAndAgain(p, tr, i)
  }

  ghost predicate OneThenOther(p: Prog, tr: Trace, i: nat)
    requires p.Seq?
    decreases p, |tr|, 0
  {
    i <= |tr| && Performs(p.first, tr[..i]) && Performs(p.second, tr[i..])
  }

  ghost predicate OnceAndAgain(p: Prog, tr: Trace, i: nat)
    requires p.Repeat?
    decreases p, |tr|, 0
  {
    0 < i <= |tr| && Performs(p.body, tr[..i]) && Performs(p, tr[i..])
  }

  ghost predicate ItemPerforms(item: Item, tr: Trace) {
    match item
    case Run(p) => Performs(p, tr)
    case Unlock(l) => tr == [Gave(l)]
  }

  ghost predicate TodoPerforms(todo: Todo, tr: Trace)
    decreases |todo|, 1
  {
    if todo == [] then tr == [] else exists i: nat :: HeadThenRest(todo, tr, i)
  }

  ghost predicate HeadThenRest(todo: Todo, tr: Trace, i: nat)
    requires todo != []
    decreases |todo|, 0
  {
    i <= |tr| && ItemPerforms(todo[0], tr[..i]) && TodoPerforms(todo[1..], tr[i..])
  }

  /** What one step of a thread, not cut short, does to the locks. */
  function Emits(item: Item): (r: Trace) {
    match item
    case Unlock(l) => [Gave(l)]
    case Run(p) => if p.With? then [Took(p.lock)] else []
  }

  /** These choices take the thread to the end of what it has to do, without an early exit. */
  predicate Completes(todo: Todo, choices: seq<Choice>)
    decreases |choices|
  {
    if choices == [] then todo == []
    else todo != [] && !choices[0].Skip? && Completes(Advance(todo, choices[0]), choices[1..])
  }

  function TraceOf(todo: Todo, choices: seq<Choice>): (tr: Trace)
    requires Completes(todo, choices)
    decreases |choices|
  {
    if choices == [] then [] else Emits(todo[0]) + TraceOf(Advance(todo, choices[0]), choices[1..])
  }

  lemma {:induction false} Glue(tr: Trace, i: nat, more: Trace)
    requires i <= |tr|
    ensures [] + (tr[..i] + (tr[i..] + more)) == tr + more
  {
  }

  lemma {:induction false} Around(tr: Trace, more: Trace)
    requires |tr| >= 2
    ensures [tr[0]] + (tr[1..|tr| - 1] + ([tr[|tr| - 1]] + more)) == tr + more
  {
  }

  lemma {:induction false} Regroup(a: Trace, b: Trace, c: Trace, d: Trace)
    ensures (a + b + c) + d == a + (b + c + d) && b + (c + d) == b + c + d
  {
  }

  // ------------------------------------------------------------------- soundness

  lemma {:induction false} Cons(item: Item, rest: Todo, a: Trace, b: Trace)
    requires ItemPerforms(item, a) && TodoPerforms(rest, b)
    ensures TodoPerforms([item] + rest, a + b)
  {
    assert ([item] + rest)[1..] == rest && (a + b)[..|a|] == a && (a + b)[|a|..] == b;
    assert HeadThenRest([item] + rest, a + b, |a|);
  }

  lemma {:induction false} Uncons(todo: Todo, tr: Trace) returns (a: Trace, b: Trace)
    requires todo != [] && TodoPerforms(todo, tr)
    ensures tr == a + b && ItemPerforms(todo[0], a) && TodoPerforms(todo[1..], b)
  {
    var i: nat :| HeadThenRest(todo, tr, i);
    a, b := tr[..i], tr[i..];
  }

  // A trace of what is left after a step, with the step's own event before it, is one of what was to do.
  lemma {:induction false} StepIsSound(todo: Todo, c: Choice, tr: Trace)
    requires todo != [] && !c.Skip? && TodoPerforms(Advance(todo, c), tr)
    ensures TodoPerforms(todo, Emits(todo[0]) + tr)
  {
    var rest := todo[1..];
    assert todo == [todo[0]] + rest;
    match todo[0] {
      case Unlock(l) => Cons(todo[0], rest, [Gave(l)], tr);
      case Run(p) => RunIsSound(p, rest, c, tr);
    }
  }

  lemma {:induction false} RunIsSound(p: Prog, rest: Todo, c: Choice, tr: Trace)
    requires !c.Skip? && TodoPerforms(Advance([Run(p)] + rest, c), tr)
    ensures TodoPerforms([Run(p)] + rest, Emits(Run(p)) + tr)
  {
    assert ([Run(p)] + rest)[1..] == rest && [] + tr == tr;
    match p {
      case Act => Cons(Run(p), rest, [], tr);
      case With(l, b) => WithIsSound(l, b, rest, tr);
      case Seq(a, b) => SeqIsSound(a, b, rest, tr);
      case Either(a, b) => EitherIsSound(a, b, if c.Enter? then a else b, rest, tr);
      case Repeat(b) =>
        if c.Enter? {
          RepeatIsSound(b, rest, tr);
        } else {
          Cons(Run(p), rest, [], tr);
        }
    }
  }

  lemma {:induction false} UnconsTwo(x: Item, y: Item, rest: Todo, tr: Trace) returns (one: Trace, two: Trace, last: Trace)
    requires TodoPerforms([x, y] + rest, tr)
    ensures tr == one + two + last && ItemPerforms(x, one) && ItemPerforms(y, two) && TodoPerforms(rest, last)
  {
    var todo := [x, y] + rest;
    assert todo[1..] == [y] + rest && ([y] + rest)[1..] == rest;
    var more;
    one, more := Uncons(todo, tr);
    two, last := Uncons([y] + rest, more);
    Regroup([], one, two, last);
  }

  lemma {:induction false} WithIsSound(l: Lock, b: Prog, rest: Todo, tr: Trace)
    requires TodoPerforms([Run(b), Unlock(l)] + rest, tr)
    ensures TodoPerforms([Run(With(l, b))] + rest, [Took(l)] + tr)
  {
    var one, two, last := UnconsTwo(Run(b), Unlock(l), rest, tr);
    WithPerforms(l, b, one);
    Cons(Run(With(l, b)), rest, [Took(l)] + one + [Gave(l)], last);
    Regroup([Took(l)], one, [Gave(l)], last);
  }

  lemma {:induction false} SeqIsSound(a: Prog, b: Prog, rest: Todo, tr: Trace)
    requires TodoPerforms([Run(a), Run(b)] + rest, tr)
    ensures TodoPerforms([Run(Seq(a, b))] + rest, tr)
  {
    var one, two, last := UnconsTwo(Run(a), Run(b), rest, tr);
    SeqPerforms(a, b, one, two);
    Cons(Run(Seq(a, b)), rest, one + two, last);
  }

  lemma {:induction false} EitherIsSound(a: Prog, b: Prog, x: Prog, rest: Todo, tr: Trace)
    requires (x == a || x == b) && TodoPerforms([Run(x)] + rest, tr)
    ensures TodoPerforms([Run(Either(a, b))] + rest, tr)
  {
    var one, last := Uncons([Run(x)] + rest, tr);
    assert ([Run(x)] + rest)[1..] == rest;
    Cons(Run(Either(a, b)), rest, one, last);
  }

  lemma {:induction false} RepeatIsSound(b: Prog, rest: Todo, tr: Trace)
    requires TodoPerforms([Run(b), Run(Repeat(b))] + rest, tr)
    ensures TodoPerforms([Run(Repeat(b))] + rest, tr)
  {
    var one, two, last := UnconsTwo(Run(b), Run(Repeat(b)), rest, tr);
    RepeatPerforms(b, one, two);
    Cons(Run(Repeat(b)), rest, one + two, last);
  }

  lemma {:induction false} WithPerforms(l: Lock, b: Prog, tr: Trace)
    requires Performs(b, tr)
    ensures Performs(With(l, b), [Took(l)] + tr + [Gave(l)])
  {
    var whole := [Took(l)] + tr + [Gave(l)];
    assert whole[1..|whole| - 1] == tr;
  }

  lemma {:induction false} SeqPerforms(a: Prog, b: Prog, one: Trace, two: Trace)
    requires Performs(a, one) && Performs(b, two)
    ensures Performs(Seq(a, b), one + two)
  {
    assert (one + two)[..|one|] == one && (one + two)[|one|..] == two;
    assert OneThenOther(Seq(a, b), one + two, |one|);
  }

  lemma {:induction false} RepeatPerforms(b: Prog, one: Trace, two: Trace)
    requires Performs(b, one) && Performs(Repeat(b), two)
    ensures Performs(Repeat(b), one + two)
  {
    assert (one + two)[..|one|] == one && (one + two)[|one|..] == two;
    if one == [] {
      assert one + two == two;
    } else {
      assert OnceAndAgain(Repeat(b), one + two, |one|);
    }
  }

  lemma {:induction false} CompletedPerforms(todo: Todo, choices: seq<Choice>)
    requires Completes(todo, choices)
    ensures TodoPerforms(todo, TraceOf(todo, choices))
    decreases |choices|
  {
    if choices != [] {
      CompletedPerforms(Advance(todo, choices[0]), choices[1..]);
      StepIsSound(todo, choices[0], TraceOf(Advance(todo, choices[0]), choices[1..]));
    }
  }

  // ---------------------------------------------------------------- completeness

  lemma {:induction false} Prepend(todo: Todo, c: Choice, next: Todo, more: seq<Choice>)
    requires todo != [] && !c.Skip? && next == Advance(todo, c) && Completes(next, more)
    ensures Completes(todo, [c] + more)
    ensures TraceOf(todo, [c] + more) == Emits(todo[0]) + TraceOf(next, more)
  {
    assert ([c] + more)[1..] == more;
  }

  /** The choices perform the trace, and then go on like this. */
  predicate Goes(todo: Todo, choices: seq<Choice>, tr: Trace, rest: Todo, after: seq<Choice>) {
    Completes(todo, choices) && Completes(rest, after) && TraceOf(todo, choices) == tr + TraceOf(rest, after)
  }

  // However the rest goes on, the program at the head can be performed on any of its traces.
  lemma {:induction false} CanPerform(p: Prog, tr: Trace, rest: Todo, after: seq<Choice>) returns (choices: seq<Choice>)
    requires Performs(p, tr) && Completes(rest, after)
    ensures Goes([Run(p)] + rest, choices, tr, rest, after)
    decreases p, |tr|, 1
  {
    var todo := [Run(p)] + rest;
    assert todo[1..] == rest;
    match p {
      case Act =>
        choices := [Enter] + after;
        Prepend(todo, Enter, rest, after);
      case With(l, b) => choices := CanWith(p, tr, rest, after);
      case Seq(a, b) => choices := CanSeq(p, tr, rest, after);
      case Either(a, b) => choices := CanEither(p, tr, rest, after);
      case Repeat(b) => choices := CanRepeat(p, tr, rest, after);
    }
  }

  lemma {:induction false} CanWith(p: Prog, tr: Trace, rest: Todo, after: seq<Choice>) returns (choices: seq<Choice>)
    requires p.With? && Performs(p, tr) && Completes(rest, after)
    ensures Goes([Run(p)] + rest, choices, tr, rest, after)
    decreases p, |tr|, 0
  {
    var inner, give := tr[1..|tr| - 1], [Unlock(p.lock)] + rest;
    assert give[1..] == rest && ([Run(p)] + rest)[1..] == rest;
    Prepend(give, Enter, rest, after);
    var more := CanPerform(p.body, inner, give, [Enter] + after);
    assert Advance([Run(p)] + rest, Enter) == [Run(p.body)] + give;
    choices := [Enter] + more;
    Prepend([Run(p)] + rest, Enter, [Run(p.body)] + give, more);
    Around(tr, TraceOf(rest, after));
  }

  lemma {:induction false} CanSeq(p: Prog, tr: Trace, rest: Todo, after: seq<Choice>) returns (choices: seq<Choice>)
    requires p.Seq? && Performs(p, tr) && Completes(rest, after)
    ensures Goes([Run(p)] + rest, choices, tr, rest, after)
    decreases p, |tr|, 0
  {
    var i: nat :| OneThenOther(p, tr, i);
    var later := CanPerform(p.second, tr[i..], rest, after);
    var more := CanPerform(p.first, tr[..i], [Run(p.second)] + rest, later);
    choices := [Enter] + more;
    BothGo(p, p.first, p.second, rest);
    GoesOn(p, p.first, p.second, tr, i, rest, after, later, more);
  }

  lemma {:induction false} CanEither(p: Prog, tr: Trace, rest: Todo, after: seq<Choice>) returns (choices: seq<Choice>)
    requires p.Either? && Performs(p, tr) && Completes(rest, after)
    ensures Goes([Run(p)] + rest, choices, tr, rest, after)
    decreases p, |tr|, 0
  {
    var c := if Performs(p.left, tr) then Enter else Other;
    var taken := if Performs(p.left, tr) then p.left else p.right;
    var more := CanPerform(taken, tr, rest, after);
    assert ([Run(p)] + rest)[1..] == rest && Advance([Run(p)] + rest, c) == [Run(taken)] + rest;
    choices := [c] + more;
    Prepend([Run(p)] + rest, c, [Run(taken)] + rest, more);
  }

  lemma {:induction false} CanRepeat(p: Prog, tr: Trace, rest: Todo, after: seq<Choice>) returns (choices: seq<Choice>)
    requires p.Repeat? && Performs(p, tr) && Completes(rest, after)
    ensures Goes([Run(p)] + rest, choices, tr, rest, after)
    decreases p, |tr|, 0
  {
    assert ([Run(p)] + rest)[1..] == rest;
    if tr == [] {
      choices := [Other] + after;
      Prepend([Run(p)] + rest, Other, rest, after);
    } else {
      var i: nat :| OnceAndAgain(p, tr, i);
      var later := CanPerform(p, tr[i..], rest, after);
      var more := CanPerform(p.body, tr[..i], [Run(p)] + rest, later);
      choices := [Enter] + more;
      BothGo(p, p.body, p, rest);
      GoesOn(p, p.body, p, tr, i, rest, after, later, more);
    }
  }

  lemma {:induction false} GoesOn(p: Prog, x: Prog, y: Prog, tr: Trace, i: nat, rest: Todo, after: seq<Choice>, later: seq<Choice>, more: seq<Choice>)
    requires i <= |tr| && !p.With? && Advance([Run(p)] + rest, Enter) == [Run(x)] + ([Run(y)] + rest)
    requires Goes([Run(y)] + rest, later, tr[i..], rest, after)
    requires Goes([Run(x)] + ([Run(y)] + rest), more, tr[..i], [Run(y)] + rest, later)
    ensures Goes([Run(p)] + rest, [Enter] + more, tr, rest, after)
  {
    Prepend([Run(p)] + rest, Enter, [Run(x)] + ([Run(y)] + rest), more);
    Glue(tr, i, TraceOf(rest, after));
  }

  lemma {:induction false} BothGo(p: Prog, x: Prog, y: Prog, rest: Todo)
    requires p == Seq(x, y) || (p == Repeat(x) && y == p)
    ensures Advance([Run(p)] + rest, Enter) == [Run(x)] + ([Run(y)] + rest)
  {
    assert ([Run(p)] + rest)[1..] == rest;
  }

  /** A thread that runs a program to its end, with no early exit, takes and gives back locks in just the ways its
      blocks allow: every such way, and no other. */
  lemma {:induction false} StepsAreTheBlocks(p: Prog, tr: Trace)
    ensures Performs(p, tr) <==> exists choices :: Completes([Run(p)], choices) && TraceOf([Run(p)], choices) == tr
  {
    if Performs(p, tr) {
      var choices := CanPerform(p, tr, [], []);
      assert [Run(p)] + [] == [Run(p)];
      assert Completes([Run(p)], choices) && TraceOf([Run(p)], choices) == tr + [];
    }
    if choices :| Completes([Run(p)], choices) && TraceOf([Run(p)], choices) == tr {
      CompletedPerforms([Run(p)], choices);
      OneItem(p, tr);
    }
  }

  lemma {:induction false} OneItem(p: Prog, tr: Trace)
    requires TodoPerforms([Run(p)], tr)
    ensures Performs(p, tr)
  {
    var a, b := Uncons([Run(p)], tr);
    assert [Run(p)][1..] == [];
    assert b == [] && tr == a;
    assert ItemPerforms(Run(p), tr);
  }

  // ------------------------------------------------------------ what can go wrong

  lemma {:induction false} RunCons(sys: System, step: Step, rest: seq<Step>)
    requires Enabled(sys, step) && Runs(Do(sys, step), rest)
    ensures Runs(sys, [step] + rest) && After(sys, [step] + rest) == After(Do(sys, step), rest)
  {
    assert ([step] + rest)[1..] == rest;
  }

  /** Two threads that take any two locks in opposite orders can come to wait for each other, and then nothing moves. */
  lemma {:induction false} OppositeOrdersDeadlock(a: Lock, b: Lock)
    requires a != b
    ensures
      var steps := [Spawn(0, With(a, With(b, Act))), Spawn(1, With(b, With(a, Act))), Move(0, Enter), Move(1, Enter)];
      Runs(map[], steps)
      && var sys := After(map[], steps);
         WaitCycle(sys, [0, 1]) && 0 in sys && sys[0] != [] && forall t, c :: !Enabled(sys, Move(t, c))
  {
    var p, q := With(a, With(b, Act)), With(b, With(a, Act));
    var s1 := Do(map[], Spawn(0, p));
    var s2 := Do(s1, Spawn(1, q));
    var s3 := Do(s2, Move(0, Enter));
    assert s3[0] == [Run(p.body), Unlock(a)] && s3[1] == [Run(q)];
    HeldIs(a, p.body);
    HeldIs(b, q.body);
    assert Held(s3[1]) == {};
    var s4 := Do(s3, Move(1, Enter));
    assert s4[0] == [Run(p.body), Unlock(a)] && s4[1] == [Run(q.body), Unlock(b)];
    assert forall t :: t in s4 <==> t == 0 || t == 1;
    RunCons(s3, Move(1, Enter), []);
    RunCons(s2, Move(0, Enter), [Move(1, Enter)] + []);
    RunCons(s1, Spawn(1, q), [Move(0, Enter)] + ([Move(1, Enter)] + []));
    RunCons(map[], Spawn(0, p), [Spawn(1, q)] + ([Move(0, Enter)] + ([Move(1, Enter)] + [])));
    assert [Spawn(0, p)] + ([Spawn(1, q)] + ([Move(0, Enter)] + ([Move(1, Enter)] + [])))
        == [Spawn(0, p), Spawn(1, q), Move(0, Enter), Move(1, Enter)];
  }

  lemma {:induction false} HeldIs(l: Lock, p: Prog)
    ensures Held([Run(p), Unlock(l)]) == {l}
  {
    var todo := [Run(p), Unlock(l)];
    assert todo[1].Unlock? && todo[1].lock == l;
  }

  /** A thread that takes a lock it holds waits for itself, unless it is the ops lock or the state lock. */
  lemma {:induction false} ReenteringDeadlocksIff(l: Lock)
    ensures
      var steps := [Spawn(0, With(l, With(l, Act))), Move(0, Enter)];
      Runs(map[], steps)
      && var sys := After(map[], steps);
         && 0 in sys && sys[0] != [] && (WaitCycle(sys, [0]) <==> l != OpsLock && l != StateLock)
         && ((forall t, c :: !Enabled(sys, Move(t, c))) <==> l != OpsLock && l != StateLock)
  {
    var p := With(l, With(l, Act));
    var s1 := Do(map[], Spawn(0, p));
    assert s1[0] == [Run(p)];
    var s2 := Do(s1, Move(0, Enter));
    assert s2[0] == [Run(p.body), Unlock(l)];
    assert forall t :: t in s2 <==> t == 0;
    HeldIs(l, p.body);
    RunCons(s1, Move(0, Enter), []);
    RunCons(map[], Spawn(0, p), [Move(0, Enter)] + []);
    assert [Spawn(0, p)] + ([Move(0, Enter)] + []) == [Spawn(0, p), Move(0, Enter)];
    assert l == OpsLock || l == StateLock ==> Enabled(s2, Move(0, Enter));
  }

  // ------------------------------------------------- the locks of the operations

  predicate Takes(p: Prog, l: Lock) {
    match p
    case Act => false
    case With(m, b) => m == l || Takes(b, l)
    case Seq(a, b) => Takes(a, l) || Takes(b, l)
    case Either(a, b) => Takes(a, l) || Takes(b, l)
    case Repeat(b) => Takes(b, l)
  }

  /** It takes the second of two locks while it holds the first. */
  predicate Nests(p: Prog, held: set<Lock>, h: Lock, l: Lock) {
    match p
    case Act => false
    case With(m, b) => (m == l && h in held && h != l) || Nests(b, held + {m}, h, l)
    case Seq(a, b) => Nests(a, held, h, l) || Nests(b, held, h, l)
    case Either(a, b) => Nests(a, held, h, l) || Nests(b, held, h, l)
    case Repeat(b) => Nests(b, held, h, l)
  }

  predicate UnderOps(h: Lock, l: Lock) { h == OpsLock && l == StateLock }

  /** What is known of a piece of code: the locks it takes, and the pairs it nests. */
  predicate Has(p: Prog, held: set<Lock>, h: Lock, l: Lock, takes: bool, nests: bool) {
    Takes(p, l) == takes && Nests(p, held, h, l) == nests
  }

  lemma {:induction false} SeqHas(p: Prog, held: set<Lock>, h: Lock, l: Lock, t1: bool, n1: bool, t2: bool, n2: bool)
    requires p.Seq? && Has(p.first, held, h, l, t1, n1) && Has(p.second, held, h, l, t2, n2)
    ensures Has(p, held, h, l, t1 || t2, n1 || n2)
  {
  }

  lemma {:induction false} EitherHas(p: Prog, held: set<Lock>, h: Lock, l: Lock, t1: bool, n1: bool, t2: bool, n2: bool)
    requires p.Either? && Has(p.left, held, h, l, t1, n1) && Has(p.right, held, h, l, t2, n2)
    ensures Has(p, held, h, l, t1 || t2, n1 || n2)
  {
  }

  lemma {:induction false} LeafHas(held: set<Lock>, h: Lock, l: Lock, m: Lock)
    ensures Has(Act, held, h, l, false, false) && Has(Repeat(Act), held, h, l, false, false)
    ensures Has(With(m, Act), held, h, l, l == m, l == m && h in held && h != l)
  {
    assert !Nests(Act, held + {m}, h, l) && !Takes(Act, l);
  }

  lemma {:induction false} StopLocks(held: set<Lock>, h: Lock, l: Lock)
    requires held <= {OpsLock}
    ensures Has(STOP_PIPELINE, held, h, l, l == OpsLock || l == StateLock, UnderOps(h, l))
  {
    var inner, body := held + {OpsLock}, STOP_PIPELINE.body;
    LeafHas(inner, h, l, StateLock);
    SeqHas(body.second, inner, h, l, false, false, l == StateLock, UnderOps(h, l));
    SeqHas(body, inner, h, l, l == StateLock, UnderOps(h, l), l == StateLock, UnderOps(h, l));
  }

  lemma {:induction false} StartLocks(held: set<Lock>, h: Lock, l: Lock)
    requires held <= {OpsLock}
    ensures Has(START_PIPELINE, held, h, l, l == OpsLock || l == StateLock, UnderOps(h, l))
  {
    var inner, body := held + {OpsLock}, START_PIPELINE.body;
    var tail := body.second.second;
    LeafHas(inner, h, l, StateLock);
    StopLocks(inner, h, l);
    SeqHas(tail.second, inner, h, l, l == StateLock, UnderOps(h, l), false, false);
    SeqHas(tail, inner, h, l, false, false, l == StateLock, UnderOps(h, l));
    EitherHas(body.second.first, inner, h, l, l == OpsLock || l == StateLock, UnderOps(h, l), false, false);
    SeqHas(body.second, inner, h, l, l == OpsLock || l == StateLock, UnderOps(h, l), l == StateLock, UnderOps(h, l));
    SeqHas(body, inner, h, l, l == StateLock, UnderOps(h, l), l == OpsLock || l == StateLock, UnderOps(h, l));
  }

  lemma {:induction false} ApplyLocks(h: Lock, l: Lock)
    ensures Has(APPLY_CONFIG, {}, h, l, l == OpsLock || l == StateLock, UnderOps(h, l))
  {
    var inner, body := {} + {OpsLock}, APPLY_CONFIG.body;
    var both, pair := l == OpsLock || l == StateLock, UnderOps(h, l);
    LeafHas(inner, h, l, StateLock);
    StopLocks(inner, h, l);
    StartLocks(inner, h, l);
    EitherHas(body.first.second.body, inner, h, l, both, pair, both, pair);
    SeqHas(body.first, inner, h, l, both, pair, both, pair);
    SeqHas(body, inner, h, l, both, pair, l == StateLock, pair);
  }

  lemma {:induction false} UpdateLocks(h: Lock, l: Lock)
    ensures Has(UPDATE_PIPELINE, {}, h, l, l == OpsLock || l == StateLock, UnderOps(h, l))
  {
    var inner, body := {} + {OpsLock}, UPDATE_PIPELINE.body;
    var both, pair := l == OpsLock || l == StateLock, UnderOps(h, l);
    LeafHas(inner, h, l, StateLock);
    StartLocks(inner, h, l);
    EitherHas(body.second, inner, h, l, both, pair, l == StateLock, pair);
    SeqHas(body, inner, h, l, l == StateLock, pair, both, pair);
  }

  lemma {:induction false} DownloadLocks(name: string, h: Lock, l: Lock)
    ensures Has(With(DownloadLock(name), Either(Act, DOWNLOAD_AND_PUBLISH)), {}, h, l,
                l == DownloadLock(name) || l == StateLock, h == DownloadLock(name) && l == StateLock)
  {
    var inner, pair, p := {} + {DownloadLock(name)}, h == DownloadLock(name) && l == StateLock, DOWNLOAD_AND_PUBLISH;
    LeafHas(inner, h, l, StateLock);
    SeqHas(p.second.second, inner, h, l, false, false, l == StateLock, pair);
    SeqHas(p.second, inner, h, l, l == StateLock, pair, l == StateLock, pair);
    SeqHas(p, inner, h, l, false, false, l == StateLock, pair);
    EitherHas(Either(Act, p), inner, h, l, false, false, l == StateLock, pair);
  }

  lemma {:induction false} WorkerLocks(name: string, h: Lock, l: Lock)
    ensures Has(Code(Worker(name)), {}, h, l, l in {TableGuard, DownloadLock(name), OpsLock, StateLock},
                UnderOps(h, l) || (h == DownloadLock(name) && l == StateLock))
  {
    var code := Code(Worker(name));
    var commit := code.second.second;
    DownloadLocks(name, h, l);
    LeafHas({}, h, l, TableGuard);
    LeafHas({}, h, l, StateLock);
    LeafHas({} + {OpsLock}, h, l, StateLock);
    assert Has(commit.first, {}, h, l, l == OpsLock || l == StateLock, UnderOps(h, l));
    SeqHas(commit, {}, h, l, l == OpsLock || l == StateLock, UnderOps(h, l), l == StateLock, false);
    SeqHas(code.second, {}, h, l, l == DownloadLock(name) || l == StateLock, h == DownloadLock(name) && l == StateLock,
           l == OpsLock || l == StateLock, UnderOps(h, l));
    SeqHas(code, {}, h, l, l == TableGuard, false, l == DownloadLock(name) || l == OpsLock || l == StateLock,
           UnderOps(h, l) || (h == DownloadLock(name) && l == StateLock));
  }

  lemma {:induction false} UninstallLocks(h: Lock, l: Lock)
    ensures Has(Code(Uninstall), {}, h, l, l in {OpsLock, StateLock, PendingLock}, UnderOps(h, l))
  {
    var code := Code(Uninstall);
    StopLocks({}, h, l);
    LeafHas({}, h, l, StateLock);
    LeafHas({}, h, l, PendingLock);
    EitherHas(code.second.second, {}, h, l, false, false, l == PendingLock, false);
    SeqHas(code.second, {}, h, l, l == StateLock, false, l == PendingLock, false);
    EitherHas(code.first, {}, h, l, l == OpsLock || l == StateLock, UnderOps(h, l), false, false);
    SeqHas(code, {}, h, l, l == OpsLock || l == StateLock, UnderOps(h, l), l == StateLock || l == PendingLock, false);
  }

  lemma {:induction false} OtherLocks(op: Operation, h: Lock, l: Lock)
    requires !op.Worker? && !op.Uninstall?
    ensures Has(Code(op), {}, h, l, l in LocksOf(op), OpsLock in LocksOf(op) && UnderOps(h, l))
  {
    var both, pair := l == OpsLock || l == StateLock, UnderOps(h, l);
    StopLocks({}, h, l);
    StartLocks({}, h, l);
    LeafHas({}, h, l, StateLock);
    LeafHas({}, h, l, PendingLock);
    match op {
      case Reconfigure =>
        ApplyLocks(h, l);
        EitherHas(Code(op).second, {}, h, l, false, false, both, pair);
        SeqHas(Code(op), {}, h, l, both, pair, both, pair);
      case Update => UpdateLocks(h, l);
      case StartServing => SeqHas(Code(op), {}, h, l, l == StateLock, false, both, pair);
      case Recover => SeqHas(Code(op), {}, h, l, l == StateLock, false, both, pair);
      case Shutdown =>
        SeqHas(Code(op).second, {}, h, l, false, false, l == StateLock, false);
        SeqHas(Code(op), {}, h, l, l == StateLock, false, l == StateLock, false);
      case _ =>
    }
  }

  /** The locks of each operation. */
  function LocksOf(op: Operation): (r: set<Lock>) {
    match op
    case Worker(name) => {TableGuard, DownloadLock(name), OpsLock, StateLock}
    case Start => {OpsLock, StateLock}
    case StartServing => {OpsLock, StateLock}
    case Stop => {OpsLock, StateLock}
    case Update => {OpsLock, StateLock}
    case Reconfigure => {OpsLock, StateLock}
    case Recover => {OpsLock, StateLock}
    case Uninstall => {OpsLock, StateLock, PendingLock}
    case FlushReports => {PendingLock}
    case _ => {StateLock}
  }

  /** In the whole runtime the only lock taken while another is held is the state lock: under the ops lock, by
      every operation that takes that, and under its download lock, by a worker. */
  lemma {:induction false} OnlyTheStateLockIsNested(op: Operation, h: Lock, l: Lock)
    ensures Takes(Code(op), l) <==> l in LocksOf(op)
    ensures Nests(Code(op), {}, h, l) <==>
            l == StateLock && ((h == OpsLock && h in LocksOf(op)) || (op.Worker? && h == DownloadLock(op.modelName)))
  {
    match op {
      case Worker(name) => WorkerLocks(name, h, l);
      case Uninstall => UninstallLocks(h, l);
      case _ => OtherLocks(op, h, l);
    }
  }
}
