/**
 The queue of uninstall reports that could not be delivered, kept in one JSON file
 (src/link/app/runtime.py:1063-1147). A lock admits one queue or flush operation at a time; the
 process may crash between any two file operations, and any of them may fail, the read included:
 a read that raises counts as an empty queue.
 */
module PendingReports {
  import opened Common

  datatype Item = Text(id: string) | Other

  datatype File = Absent | Unreadable | Holding(items: seq<Item>)

  /** What the operation that holds the lock is about to do; `sent` are the ids it has delivered,
      `blind` says that its read of the file failed. */
  datatype Op =
    | Idle
    | Sending(ids: seq<string>, next: nat, remaining: seq<string>, sent: set<string>)
    | Writing(ids: seq<string>, added: Option<string>, sent: set<string>, blind: bool)
    | Renaming(ids: seq<string>, added: Option<string>, sent: set<string>, blind: bool)
    | Unlinking(sent: set<string>)

  // `log` is the history of ids in the order in which they entered the file.
  datatype State = State(file: File, op: Op, log: seq<string>)

  datatype Event =
    | QueueStart(id: string, read: bool)
    | FlushStart(read: bool)
    | Post(id: string, ok: bool)
    | FlushEnd
    | WriteTemp(ok: bool)
    | Replace(ok: bool)
    | Unlink(ok: bool)
    | Crash

  // -------------------------------------------------------------- the file

  function Texts(items: seq<Item>): (r: seq<string>) {
    if items == [] then [] else (if items[0].Text? then [items[0].id] else []) + Texts(items[1..])
  }

  /** `_load_pending_uninstalls`: a missing or unreadable file is an empty queue. */
  function Load(f: File): (r: seq<string>) { if f.Holding? then Texts(f.items) else [] }

  function Dump(ids: seq<string>): (r: File) { Holding(seq(|ids|, i requires 0 <= i < |ids| => Text(ids[i]))) }

  lemma {:induction false} LoadDump(ids: seq<string>)
    ensures Load(Dump(ids)) == ids
    decreases |ids|
  {
    if ids != [] {
      LoadDump(ids[1..]);
      assert Dump(ids).items[1..] == Dump(ids[1..]).items;
    }
  }

  // -------------------------------------------------------------- the steps

  /** What an operation sees: a read that raises sees an empty queue. */
  function Seen(f: File, read: bool): (r: seq<string>) { if read then Load(f) else [] }

  function BeginQueue(s: State, id: string, read: bool): (r: State) {
    if !s.op.Idle? || id in Seen(s.file, read) then s
    else s.(op := Writing(Seen(s.file, read) + [id], Some(id), {}, !read))
  }

  function BeginFlush(s: State, read: bool): (r: State) {
    if !s.op.Idle? || Seen(s.file, read) == [] then s else s.(op := Sending(Seen(s.file, read), 0, [], {}))
  }

  function PostOne(s: State, id: string, ok: bool): (r: State) {
    if s.op.Sending? && s.op.next < |s.op.ids| && s.op.ids[s.op.next] == id then
      s.(op := Sending(s.op.ids, s.op.next + 1,
                       if ok then s.op.remaining else s.op.remaining + [id],
                       if ok then s.op.sent + {id} else s.op.sent))
    else s
  }

  function EndFlush(s: State): (r: State) {
    if s.op.Sending? && s.op.next == |s.op.ids| then
      s.(op := if s.op.remaining == s.op.ids then Idle
               else if s.op.remaining == [] then Unlinking(s.op.sent)
               else Writing(s.op.remaining, None, s.op.sent, false))
    else s
  }

  function WriteFile(s: State, ok: bool): (r: State) {
    if s.op.Writing? then s.(op := if ok then Renaming(s.op.ids, s.op.added, s.op.sent, s.op.blind) else Idle) else s
  }

  function RenameFile(s: State, ok: bool): (r: State) {
    if !s.op.Renaming? then s
    else if !ok then s.(op := Idle)
    else State(Dump(s.op.ids), Idle, if s.op.added.Some? then s.log + [s.op.added.value] else s.log)
  }

  function UnlinkFile(s: State, ok: bool): (r: State) {
    if !s.op.Unlinking? then s else if ok then s.(file := Absent, op := Idle) else s.(op := Idle)
  }

  /** An event that is not enabled changes nothing. */
  function Next(s: State, e: Event): (r: State) {
    match e
    case QueueStart(id, read) => BeginQueue(s, id, read)
    case FlushStart(read) => BeginFlush(s, read)
    case Post(id, ok) => PostOne(s, id, ok)
    case FlushEnd => EndFlush(s)
    case WriteTemp(ok) => WriteFile(s, ok)
    case Replace(ok) => RenameFile(s, ok)
    case Unlink(ok) => UnlinkFile(s, ok)
    case Crash => s.(op := Idle)
  }

  function Run(s: State, events: seq<Event>): (r: State)
    decreases |events|
  {
    if events == [] then s else Run(Next(s, events[0]), events[1..])
  }

  // ---------------------------------------------------------- subsequences

  /** The elements of `a` occur in `b` in the same order. */
  predicate Subsequence<T(==)>(a: seq<T>, b: seq<T>)
    decreases |b|
  {
    if a == [] then true
    else if b == [] then false
    else var a', b' := a[..|a| - 1], b[..|b| - 1];
         (a[|a| - 1] == b[|b| - 1] && Subsequence(a', b')) || Subsequence(a, b')
  }

  lemma {:induction false} SubsequenceSnoc<T>(a: seq<T>, b: seq<T>, x: T)
    requires Subsequence(a, b)
    ensures Subsequence(a + [x], b + [x]) && Subsequence(a, b + [x])
  {
    assert (a + [x])[..|a|] == a && (b + [x])[..|b|] == b;
  }

  lemma {:induction false} SubsequenceSelf<T>(a: seq<T>)
    ensures Subsequence(a, a)
    decreases |a|
  {
    if a != [] {
      SubsequenceSelf(a[..|a| - 1]);
    }
  }

  lemma {:induction false} SubsequenceTrans<T>(a: seq<T>, b: seq<T>, c: seq<T>)
    requires Subsequence(a, b) && Subsequence(b, c)
    ensures Subsequence(a, c)
    decreases |b| + |c|
  {
    if a != [] {
      var a', b', c' := a[..|a| - 1], b[..|b| - 1], c[..|c| - 1];
      if Subsequence(b, c') {
        SubsequenceTrans(a, b, c');
      } else if Subsequence(a, b') {
        SubsequenceTrans(a, b', c');
      } else {
        SubsequenceTrans(a', b', c');
      }
    }
  }

  lemma {:induction false} SubsequenceIn<T>(a: seq<T>, b: seq<T>, x: T)
    requires Subsequence(a, b) && x in a
    ensures x in b
    decreases |b|
  {
    var a', b' := a[..|a| - 1], b[..|b| - 1];
    if Subsequence(a, b') {
      SubsequenceIn(a, b', x);
    } else if x in a' {
      SubsequenceIn(a', b', x);
    }
  }

  lemma {:induction false} SubsequenceDistinct<T>(a: seq<T>, b: seq<T>)
    requires Subsequence(a, b) && Distinct(b)
    ensures Distinct(a)
    decreases |b|
  {
    if a != [] {
      var a', b' := a[..|a| - 1], b[..|b| - 1];
      if Subsequence(a, b') {
        SubsequenceDistinct(a, b');
      } else {
        SubsequenceDistinct(a', b');
        forall i | 0 <= i < |a'| ensures a[i] != a[|a| - 1] {
          SubsequenceIn(a', b', a[i]);
        }
      }
    }
  }

  // ---------------------------------------------------------- the invariant

  /** Everything queued is either kept or has been delivered. */
  ghost predicate Accounts(queued: seq<string>, kept: seq<string>, sent: set<string>) {
    forall id :: id in queued ==> id in kept || id in sent
  }

  /** A replacement for the queue: the queue with one new id at the end, the queue less delivered
      ids, or, after a failed read, the new id alone. */
  ghost predicate Replacement(queued: seq<string>, ids: seq<string>, added: Option<string>, sent: set<string>, blind: bool) {
    if blind then added.Some? && ids == [added.value] && sent == {}
    else
      Accounts(queued, ids, sent)
      && if added.Some? then added.value !in queued && ids == queued + [added.value] else Subsequence(ids, queued)
  }

  ghost predicate OpInv(queued: seq<string>, op: Op) {
    match op
    case Idle => true
    case Sending(ids, next, remaining, sent) =>
      ids == queued && next <= |ids| && Subsequence(remaining, ids[..next]) && Accounts(ids[..next], remaining, sent)
    case Writing(ids, added, sent, blind) => Replacement(queued, ids, added, sent, blind)
    case Renaming(ids, added, sent, blind) => Replacement(queued, ids, added, sent, blind)
    case Unlinking(sent) => Accounts(queued, [], sent)
  }

  ghost predicate Inv(s: State) {
    Distinct(Load(s.file)) && Subsequence(Load(s.file), s.log) && OpInv(Load(s.file), s.op)
  }

  lemma {:induction false} PostKeepsOp(queued: seq<string>, op: Op, ok: bool)
    requires OpInv(queued, op) && op.Sending? && op.next < |op.ids|
    ensures var id := op.ids[op.next];
            OpInv(queued, Sending(op.ids, op.next + 1, if ok then op.remaining else op.remaining + [id],
                                  if ok then op.sent + {id} else op.sent))
  {
    var id := op.ids[op.next];
    SubsequenceSnoc(op.remaining, op.ids[..op.next], id);
    assert op.ids[..op.next + 1] == op.ids[..op.next] + [id];
  }

  // A replacement is free of duplicates and in order of entry, as the queue was.
  lemma {:induction false} ReplacementKeepsOrder(
    queued: seq<string>, ids: seq<string>, added: Option<string>, sent: set<string>, blind: bool, log: seq<string>)
    requires Distinct(queued) && Subsequence(queued, log) && Replacement(queued, ids, added, sent, blind)
    ensures Distinct(ids) && Subsequence(ids, if added.Some? then log + [added.value] else log)
  {
    if blind {
      SubsequenceSnoc([], log, added.value);
      assert [] + [added.value] == ids;
    } else if added.Some? {
      SubsequenceSnoc(queued, log, added.value);
    } else {
      SubsequenceDistinct(ids, queued);
      SubsequenceTrans(ids, queued, log);
    }
  }

  lemma RenameKeepsInv(s: State)
    requires Inv(s) && s.op.Renaming?
    ensures Inv(RenameFile(s, true))
  {
    LoadDump(s.op.ids);
    ReplacementKeepsOrder(Load(s.file), s.op.ids, s.op.added, s.op.sent, s.op.blind, s.log);
  }

  lemma {:induction false} QueueStartKeepsInv(s: State, id: string, read: bool)
    requires Inv(s)
    ensures Inv(BeginQueue(s, id, read))
  {
  }

  lemma {:induction false} PostKeepsInv(s: State, id: string, ok: bool)
    requires Inv(s)
    ensures Inv(PostOne(s, id, ok))
  {
    if s.op.Sending? && s.op.next < |s.op.ids| && s.op.ids[s.op.next] == id {
      PostKeepsOp(Load(s.file), s.op, ok);
    }
  }

  lemma FlushStartKeepsInv(s: State, read: bool)
    requires Inv(s)
    ensures Inv(BeginFlush(s, read))
  {
  }

  lemma FlushEndKeepsInv(s: State)
    requires Inv(s)
    ensures Inv(EndFlush(s))
  {
    if s.op.Sending? && s.op.next == |s.op.ids| {
      assert s.op.ids[..s.op.next] == s.op.ids;
    }
  }

  /** Every step of every operation, and a crash at any point, keeps the queue distinct and in order. */
  lemma StepKeepsInv(s: State, e: Event)
    requires Inv(s)
    ensures Inv(Next(s, e))
  {
    match e
    case QueueStart(id, read) => QueueStartKeepsInv(s, id, read);
    case FlushStart(read) => FlushStartKeepsInv(s, read);
    case Post(id, ok) => PostKeepsInv(s, id, ok);
    case FlushEnd => FlushEndKeepsInv(s);
    case WriteTemp(ok) =>
    case Replace(ok) => if s.op.Renaming? { RenameKeepsInv(s); }
    case Unlink(ok) =>
    case Crash =>
  }

  lemma {:induction false} RunKeepsInv(s: State, events: seq<Event>)
    requires Inv(s)
    ensures Inv(Run(s, events))
    decreases |events|
  {
    if events != [] {
      StepKeepsInv(s, events[0]);
      RunKeepsInv(Next(s, events[0]), events[1..]);
    }
  }

  // ------------------------------------------ leaving means delivered, or lost

  function Sent(op: Op): (r: set<string>) { if op.Idle? then {} else op.sent }

  predicate IsBlind(op: Op) { (op.Writing? || op.Renaming?) && op.blind }

  /** The save of an operation that could not read the queue goes through, over a file that holds `id`. */
  predicate Overwrites(s: State, e: Event, id: string) {
    s.op.Renaming? && s.op.blind && e == Replace(true) && id in Load(s.file) && id !in s.op.ids
  }

  /** An id that the operation in progress has not delivered leaves the file in one step if and
      only if that step overwrites it blindly. */
  lemma StepLeavesIff(s: State, e: Event, id: string)
    requires Inv(s) && id in Load(s.file) && id !in Sent(s.op)
    ensures id !in Load(Next(s, e).file) <==> Overwrites(s, e, id)
  {
    if s.op.Renaming? && e == Replace(true) {
      LoadDump(s.op.ids);
      assert Next(s, e).file == Dump(s.op.ids);
    } else if !(s.op.Unlinking? && e == Unlink(true)) {
      OnlySavesChangeTheFile(s, e);
    }
  }

  lemma OnlySavesChangeTheFile(s: State, e: Event)
    requires !(s.op.Renaming? && e == Replace(true)) && !(s.op.Unlinking? && e == Unlink(true))
    ensures Next(s, e).file == s.file
  {
  }

  lemma StepSends(s: State, e: Event, id: string)
    ensures id in Sent(Next(s, e).op) ==> id in Sent(s.op) || e == Post(id, true)
  {
  }

  /** The state before event `n` of a run. */
  function At(s: State, events: seq<Event>, n: nat): (r: State)
    requires n <= |events|
  {
    Run(s, events[..n])
  }

  lemma {:induction false} RunSnoc(s: State, events: seq<Event>, e: Event)
    ensures Run(s, events + [e]) == Next(Run(s, events), e)
    decreases |events|
  {
    if events == [] {
      assert [e][1..] == [] && events + [e] == [e];
      assert Run(Next(s, e), []) == Next(s, e);
    } else {
      assert (events + [e])[1..] == events[1..] + [e];
      RunSnoc(Next(s, events[0]), events[1..], e);
    }
  }

  lemma {:induction false} AtNext(s: State, events: seq<Event>, n: nat)
    requires n < |events|
    ensures At(s, events, n + 1) == Next(At(s, events, n), events[n])
  {
    assert events[..n + 1] == events[..n] + [events[n]];
    RunSnoc(s, events[..n], events[n]);
  }

  lemma {:induction false} NeverSent(s: State, events: seq<Event>, n: nat, id: string)
    requires n <= |events| && id !in Sent(s.op) && Post(id, true) !in events
    ensures id !in Sent(At(s, events, n).op)
    decreases n
  {
    if n > 0 {
      NeverSent(s, events, n - 1, id);
      AtNext(s, events, n - 1);
      StepSends(At(s, events, n - 1), events[n - 1], id);
    }
  }

  /** A queue operation that starts at `i` fails to read a file that holds `id`, runs on without
      interruption, and its rename at `j` succeeds. */
  ghost predicate FailedReadSaved(s: State, events: seq<Event>, i: nat, j: nat, id: string) {
    && i < j < |events|
    && events[i].QueueStart? && !events[i].read && events[i].id != id
    && At(s, events, i).op.Idle? && id in Load(At(s, events, i).file)
    && InProgress(s, events, i, j)
    && At(s, events, j).op == Renaming([events[i].id], Some(events[i].id), {}, true) && events[j] == Replace(true)
  }

  // From just after `i` up to `j` the operation is under way and the file is untouched.
  ghost predicate InProgress(s: State, events: seq<Event>, i: nat, j: nat)
    requires i < j <= |events|
  {
    forall k :: i < k <= j ==> IsBlind(At(s, events, k).op) && At(s, events, k).file == At(s, events, i).file
  }

  lemma BlindStep(s: State, e: Event)
    requires IsBlind(Next(s, e).op)
    ensures Next(s, e).file == s.file
    ensures if IsBlind(s.op) then Next(s, e).op.ids == s.op.ids && Next(s, e).op.added == s.op.added
            else s.op.Idle? && e.QueueStart? && !e.read && Next(s, e).op == Writing([e.id], Some(e.id), {}, true)
  {
  }

  // A blind operation goes back to a failed read.
  lemma {:induction false} BlindHasCause(s: State, events: seq<Event>, n: nat) returns (i: nat)
    requires n <= |events| && !IsBlind(s.op) && IsBlind(At(s, events, n).op)
    ensures i < n && events[i].QueueStart? && !events[i].read && At(s, events, i).op.Idle?
    ensures InProgress(s, events, i, n)
    ensures At(s, events, n).op.ids == [events[i].id] && At(s, events, n).op.added == Some(events[i].id)
    decreases n
  {
    assert n > 0;
    AtNext(s, events, n - 1);
    BlindStep(At(s, events, n - 1), events[n - 1]);
    if IsBlind(At(s, events, n - 1).op) {
      i := BlindHasCause(s, events, n - 1);
    } else {
      i := n - 1;
    }
  }

  ghost predicate LeavesAt(s: State, events: seq<Event>, n: nat, id: string) {
    n < |events| && id in Load(At(s, events, n).file) && id !in Load(At(s, events, n + 1).file)
  }

  lemma {:induction false} AtKeepsInv(s: State, events: seq<Event>, n: nat)
    requires Inv(s) && n <= |events|
    ensures Inv(At(s, events, n))
  {
    RunKeepsInv(s, events[..n]);
  }

  lemma {:induction false} LeavingIsLoss(s: State, events: seq<Event>, j: nat, id: string) returns (i: nat)
    requires Inv(s) && s.op.Idle? && Post(id, true) !in events && LeavesAt(s, events, j, id)
    ensures FailedReadSaved(s, events, i, j, id)
  {
    AtKeepsInv(s, events, j);
    NeverSent(s, events, j, id);
    AtNext(s, events, j);
    StepLeavesIff(At(s, events, j), events[j], id);
    i := BlindHasCause(s, events, j);
  }

  lemma {:induction false} LossIsLeaving(s: State, events: seq<Event>, i: nat, j: nat, id: string)
    requires FailedReadSaved(s, events, i, j, id)
    ensures LeavesAt(s, events, j, id)
  {
    AtNext(s, events, j);
    LoadDump([events[i].id]);
  }

  /** Over any run with crashes and failures, an id for which no attempt succeeds leaves the queue
      if and only if some queue operation failed to read the file while the id was in it, and its
      save went through. */
  lemma {:induction false} UndeliveredLeavesIff(s: State, events: seq<Event>, id: string)
    requires Inv(s) && s.op.Idle? && Post(id, true) !in events
    ensures (exists n :: LeavesAt(s, events, n, id)) <==> (exists i, j :: FailedReadSaved(s, events, i, j, id))
  {
    if n :| LeavesAt(s, events, n, id) {
      var i := LeavingIsLoss(s, events, n, id);
    }
    if i, j :| FailedReadSaved(s, events, i, j, id) {
      LossIsLeaving(s, events, i, j, id);
    }
  }

  lemma {:induction false} SomewhereLeaves(s: State, events: seq<Event>, n: nat, id: string) returns (k: nat)
    requires n <= |events| && id in Load(s.file) && id !in Load(At(s, events, n).file)
    ensures LeavesAt(s, events, k, id)
    decreases n
  {
    assert events[..0] == [];
    if id in Load(At(s, events, n - 1).file) {
      k := n - 1;
    } else {
      k := SomewhereLeaves(s, events, n - 1, id);
    }
  }

  /** From an empty start: no duplicates, the order of entry, and a queued id stays in the queue
      unless it is delivered or lost to a failed read. */
  lemma {:induction false} QueueIsReliable(before: seq<Event>, after: seq<Event>, id: string)
    requires id in Load(Run(State(Absent, Idle, []), before).file)
    ensures var middle := Run(State(Absent, Idle, []), before).(op := Idle);
            var end := Run(middle, after);
            Distinct(Load(end.file)) && Subsequence(Load(end.file), end.log)
            && (id in Load(end.file) || Post(id, true) in after || exists i, j :: FailedReadSaved(middle, after, i, j, id))
  {
    RunKeepsInv(State(Absent, Idle, []), before);
    var middle := Run(State(Absent, Idle, []), before).(op := Idle);
    RunKeepsInv(middle, after);
    if id !in Load(Run(middle, after).file) && Post(id, true) !in after {
      assert after[..|after|] == after;
      var k := SomewhereLeaves(middle, after, |after|, id);
      UndeliveredLeavesIff(middle, after, id);
    }
  }

  /** Such a run: "a" is queued, the read for "b" fails, and "a" is gone though nothing was ever sent. */
  lemma {:induction false} FailedReadLosesTheQueue()
    ensures var queued := Run(State(Absent, Idle, []), [QueueStart("a", true), WriteTemp(true), Replace(true)]);
            Load(queued.file) == ["a"]
            && Load(Run(queued, [QueueStart("b", false), WriteTemp(true), Replace(true)]).file) == ["b"]
  {
    QueueAdds(State(Absent, Idle, []), "a", true);
    QueueAdds(State(Dump(["a"]), Idle, ["a"]), "b", false);
    assert [] + ["a"] == ["a"] && [] + ["b"] == ["b"];
    LoadDump(["a"]);
    LoadDump(["b"]);
  }

  // -------------------------------------------------- an undisturbed flush

  /** The ids whose attempt failed, in order. */
  function Undelivered(ids: seq<string>, posts: seq<bool>): (r: seq<string>)
    requires |ids| == |posts|
  {
    if ids == [] then []
    else Undelivered(ids[..|ids| - 1], posts[..|ids| - 1]) + if posts[|ids| - 1] then [] else [ids[|ids| - 1]]
  }

  lemma {:induction false} UndeliveredIsInOrder(ids: seq<string>, posts: seq<bool>)
    requires |ids| == |posts|
    ensures Subsequence(Undelivered(ids, posts), ids)
    decreases |ids|
  {
    if ids != [] {
      var n := |ids| - 1;
      UndeliveredIsInOrder(ids[..n], posts[..n]);
      SubsequenceSnoc(Undelivered(ids[..n], posts[..n]), ids[..n], ids[n]);
      assert ids == ids[..n] + [ids[n]] && Undelivered(ids[..n], posts[..n]) + [] == Undelivered(ids[..n], posts[..n]);
    }
  }

  lemma {:induction false} UndeliveredIsWhatFailed(ids: seq<string>, posts: seq<bool>)
    requires |ids| == |posts|
    ensures forall i :: 0 <= i < |ids| && !posts[i] ==> ids[i] in Undelivered(ids, posts)
    ensures forall id :: id in Undelivered(ids, posts) ==> exists i :: 0 <= i < |ids| && ids[i] == id && !posts[i]
    decreases |ids|
  {
    if ids != [] {
      var n := |ids| - 1;
      UndeliveredIsWhatFailed(ids[..n], posts[..n]);
      forall i | 0 <= i < |ids| && !posts[i] ensures ids[i] in Undelivered(ids, posts) {
        assert i < n ==> ids[..n][i] == ids[i] && posts[..n][i] == posts[i];
      }
      forall id | id in Undelivered(ids, posts) ensures exists i :: 0 <= i < |ids| && ids[i] == id && !posts[i] {
        if id in Undelivered(ids[..n], posts[..n]) {
          var i :| 0 <= i < n && ids[..n][i] == id && !posts[..n][i];
          assert ids[i] == id && !posts[i];
        }
      }
    }
  }

  function Posts(ids: seq<string>, posts: seq<bool>): (r: seq<Event>)
    requires |ids| == |posts|
  {
    seq(|ids|, i requires 0 <= i < |ids| => Post(ids[i], posts[i]))
  }

  lemma {:induction false} UndeliveredSnoc(ids: seq<string>, posts: seq<bool>, n: nat)
    requires n < |ids| == |posts|
    ensures Undelivered(ids[..n + 1], posts[..n + 1])
            == Undelivered(ids[..n], posts[..n]) + if posts[n] then [] else [ids[n]]
  {
    assert ids[..n + 1][..n] == ids[..n] && posts[..n + 1][..n] == posts[..n];
  }

  /** In the middle of a flush: the first `n` ids have been tried. */
  ghost predicate Tried(s: State, ids: seq<string>, posts: seq<bool>, n: nat)
    requires n <= |ids| == |posts|
  {
    s.op.Sending? && s.op.ids == ids && s.op.next == n && s.op.remaining == Undelivered(ids[..n], posts[..n])
  }

  lemma {:induction false} PostStep(s: State, ids: seq<string>, posts: seq<bool>, n: nat)
    requires n < |ids| == |posts| && Tried(s, ids, posts, n)
    ensures Tried(PostOne(s, ids[n], posts[n]), ids, posts, n + 1) && PostOne(s, ids[n], posts[n]).file == s.file
  {
    UndeliveredSnoc(ids, posts, n);
    assert s.op.remaining + [] == s.op.remaining;
  }

  lemma {:induction false} PostsCollect(s: State, ids: seq<string>, posts: seq<bool>, n: nat)
    requires n <= |ids| == |posts| && Tried(s, ids, posts, 0)
    ensures Tried(At(s, Posts(ids, posts), n), ids, posts, n) && At(s, Posts(ids, posts), n).file == s.file
    decreases n
  {
    if n > 0 {
      PostsCollect(s, ids, posts, n - 1);
      AtNext(s, Posts(ids, posts), n - 1);
      PostStep(At(s, Posts(ids, posts), n - 1), ids, posts, n - 1);
    }
  }

  lemma {:induction false} PostsCollectAll(s: State, posts: seq<bool>)
    requires s.op.Idle? && Load(s.file) != [] && |posts| == |Load(s.file)|
    ensures var ids := Load(s.file);
            var r := Run(BeginFlush(s, true), Posts(ids, posts));
            r.file == s.file && r.op.Sending? && r.op.ids == ids && r.op.next == |ids|
            && r.op.remaining == Undelivered(ids, posts)
  {
    var ids := Load(s.file);
    PostsCollect(BeginFlush(s, true), ids, posts, |ids|);
    assert Posts(ids, posts)[..|ids|] == Posts(ids, posts) && ids[..|ids|] == ids && posts[..|ids|] == posts;
  }

  function Finish(s: State): (r: State) {
    Next(Next(Next(Next(s, FlushEnd), WriteTemp(true)), Replace(true)), Unlink(true))
  }

  lemma FinishStores(s: State)
    requires s.op.Sending? && s.op.next == |s.op.ids| && s.op.ids == Load(s.file)
    ensures Finish(s).op.Idle? && Load(Finish(s).file) == s.op.remaining
  {
    var ended := EndFlush(s);
    assert Next(s, FlushEnd) == ended;
    if ended.op.Writing? {
      LoadDump(s.op.remaining);
      var written := WriteFile(ended, true);
      assert Next(ended, WriteTemp(true)) == written;
      assert Next(written, Replace(true)).file == Dump(s.op.remaining);
    }
  }

  /** A flush that nothing disturbs leaves exactly the undelivered ids, in order. */
  lemma {:induction false} FlushLeavesUndelivered(s: State, posts: seq<bool>)
    requires s.op.Idle? && Load(s.file) != [] && |posts| == |Load(s.file)|
    ensures var end := Finish(Run(BeginFlush(s, true), Posts(Load(s.file), posts)));
            end.op.Idle? && Load(end.file) == Undelivered(Load(s.file), posts)
  {
    PostsCollectAll(s, posts);
    FinishStores(Run(BeginFlush(s, true), Posts(Load(s.file), posts)));
  }

  /** What it leaves on disk: the old file if nothing was delivered, none if everything was. */
  lemma {:induction false} FlushedFile(s: State, posts: seq<bool>)
    requires s.op.Idle? && Load(s.file) != [] && |posts| == |Load(s.file)|
    ensures var end := Finish(Run(BeginFlush(s, true), Posts(Load(s.file), posts)));
            var left := Undelivered(Load(s.file), posts);
            end.op.Idle? && end.file == if left == Load(s.file) then s.file else if left == [] then Absent else Dump(left)
  {
    PostsCollectAll(s, posts);
    var sending := Run(BeginFlush(s, true), Posts(Load(s.file), posts));
    var ended := Next(sending, FlushEnd);
    if ended.op.Writing? {
      var written := Next(ended, WriteTemp(true));
      assert written.op == Renaming(ended.op.ids, ended.op.added, ended.op.sent, ended.op.blind);
      assert Next(written, Replace(true)).op.Idle?;
    }
  }

  /** A file operation that fails, and a crash, end the operation and leave the file as it was; the operation
      holds the lock until then. */
  lemma FailureEndsTheOperation(s: State, id: string, read: bool)
    ensures !s.op.Idle? ==> Next(s, QueueStart(id, read)) == Next(s, FlushStart(read)) == s
    ensures s.op.Writing? ==> Next(s, WriteTemp(false)) == s.(op := Idle)
    ensures s.op.Renaming? ==> Next(s, Replace(false)) == s.(op := Idle)
    ensures s.op.Unlinking? ==> Next(s, Unlink(false)) == s.(op := Idle)
    ensures Next(s, Crash) == s.(op := Idle)
  {
  }

  /** A queue operation that nothing disturbs adds its id at the end, once. */
  lemma {:induction false} QueueAdds(s: State, id: string, read: bool)
    requires s.op.Idle?
    ensures var ids := if read then Load(s.file) else [];
            Run(s, [QueueStart(id, read), WriteTemp(true), Replace(true)]) ==
            if id in ids then s else State(Dump(ids + [id]), Idle, s.log + [id])
  {
    var ids := if read then Load(s.file) else [];
    var events := [QueueStart(id, read), WriteTemp(true), Replace(true)];
    assert events[1..] == [WriteTemp(true), Replace(true)] && events[1..][1..] == [Replace(true)] && [Replace(true)][1..] == [];
    var begun := Next(s, QueueStart(id, read));
    var written := Next(begun, WriteTemp(true));
    var done := Next(written, Replace(true));
    assert Run(done, []) == done && Run(written, [Replace(true)]) == done && Run(begun, events[1..]) == done;
    assert id !in ids ==> written == s.(op := Renaming(ids + [id], Some(id), {}, !read));
  }

  // ------------------------------------------------------------- in place

  class ReportQueue {
    var file: File

    /** `saved` says whether the file operations succeed; when they do not, the old file stays. */
    method SavePending(ids: seq<string>, saved: bool)
      modifies this
      ensures Load(file) == if saved then ids else old(Load(file))
    {
      if saved {
        LoadDump(ids);
        file := if ids == [] then Absent else Dump(ids);
      }
    }

    /** `read` says whether the file could be read; when it could not, the queue counts as empty. */
    method LoadPending(read: bool) returns (ids: seq<string>)
      ensures ids == Seen(file, read)
    {
      return if read then Load(file) else [];
    }

    method QueuePending(id: string, read: bool, saved: bool)
      requires Distinct(Load(file))
      modifies this
      ensures Distinct(Load(file))
      ensures Load(file) == if !saved || id in Seen(old(file), read) then old(Load(file)) else Seen(old(file), read) + [id]
    {
      var ids := LoadPending(read);
      if id !in ids {
        SavePending(ids + [id], saved);
      }
    }

    method FlushPending(posts: seq<bool>, read: bool, saved: bool)
      requires |posts| == |Load(file)|
      modifies this
      ensures Load(file) == if read && saved then Undelivered(old(Load(file)), posts) else old(Load(file))
    {
      var ids := LoadPending(read);
      if ids == [] {
        return;
      }
      var remaining: seq<string> := [];
      for i := 0 to |ids|
        invariant remaining == Undelivered(ids[..i], posts[..i])
      {
        assert ids[..i + 1][..i] == ids[..i] && posts[..i + 1][..i] == posts[..i];
        if !posts[i] {
          remaining := remaining + [ids[i]];
        }
      }
      assert ids[..|ids|] == ids && posts[..|ids|] == posts;
      if remaining != ids {
        SavePending(remaining, saved);
      }
    }
  }
}
