/**
 Which detections are emitted and which are not (plugins/image_classifier/adapter.py:369-393,
 plugins/audio_classifier/adapter.py:304-318), told from the frames and the clock alone.
 */
module DetectionOutcome {
  import opened Common
  import opened DetectionEvents

  predicate InRange(frames: seq<Frame>, runs: seq<Run>) {
    forall k :: 0 <= k < |runs| ==> runs[k].first <= runs[k].last < |frames|
  }

  predicate Ordered(runs: seq<Run>) { forall k, l :: 0 <= k < l < |runs| ==> runs[k].last < runs[l].first }

  /** Ended by a later frame. */
  predicate Ended(frames: seq<Frame>, r: Run) { r.first <= r.last && r.last + 1 < |frames| }

  function Lasts(frames: seq<Frame>, r: Run): (d: real)
    requires r.first <= r.last < |frames|
  {
    frames[r.last].now - frames[r.first].now
  }

  /** The time since `mark` when the run is judged. */
  function Since(frames: seq<Frame>, r: Run, mark: real): (d: real)
    requires Ended(frames, r)
  {
    frames[r.last + 1].check - mark
  }

  /** Ended, long enough, and long enough after the mark. */
  predicate Qualifies(cfg: Config, frames: seq<Frame>, r: Run, last: real)
    requires r.first <= r.last < |frames|
  {
    Ended(frames, r) && Lasts(frames, r) >= cfg.minDuration && Since(frames, r, last) >= cfg.minInterval
  }

  /** The runs that are emitted, each with the mark of the one before it in mind. */
  function Picked(cfg: Config, frames: seq<Frame>, runs: seq<Run>, last: real): (r: seq<Run>)
    requires InRange(frames, runs)
    decreases |runs|
  {
    if runs == [] then []
    else if Qualifies(cfg, frames, runs[0], last) then [runs[0]] + Picked(cfg, frames, runs[1..], frames[runs[0].last + 1].mark)
    else Picked(cfg, frames, runs[1..], last)
  }

  predicate AllEnded(frames: seq<Frame>, picks: seq<Run>) { forall k :: 0 <= k < |picks| ==> Ended(frames, picks[k]) }

  /** The mark that run `i` of the list is judged against: the one left by the emission before it. */
  function MarkBefore(frames: seq<Frame>, picks: seq<Run>, i: nat, last: real): (m: real)
    requires i <= |picks| && AllEnded(frames, picks)
  {
    if i == 0 then last else frames[picks[i - 1].last + 1].mark
  }

  /** Each of them does, after the mark of the one before. */
  predicate Qualify(cfg: Config, frames: seq<Frame>, picks: seq<Run>, last: real)
    requires AllEnded(frames, picks)
  {
    forall i :: 0 <= i < |picks| ==> Qualifies(cfg, frames, picks[i], MarkBefore(frames, picks, i, last))
  }

  /** The run lies after the first `i` of the list and before the others. */
  predicate Between(picks: seq<Run>, i: nat, r: Run) {
    i <= |picks|
    && (forall j :: 0 <= j < i ==> picks[j].last < r.first) && (forall j :: i <= j < |picks| ==> r.last < picks[j].first)
  }

  /** Too short, or too soon after the emission before it. */
  ghost predicate FailsTest(cfg: Config, frames: seq<Frame>, picks: seq<Run>, last: real, r: Run)
    requires AllEnded(frames, picks) && Ended(frames, r)
  {
    Lasts(frames, r) < cfg.minDuration
    || exists i: nat :: Between(picks, i, r) && Since(frames, r, MarkBefore(frames, picks, i, last)) < cfg.minInterval
  }

  // The emissions after the first run, seen from before it.
  lemma {:induction false} QualifyCons(cfg: Config, frames: seq<Frame>, r: Run, rest: seq<Run>, last: real)
    requires Ended(frames, r) && AllEnded(frames, rest) && Qualify(cfg, frames, rest, frames[r.last + 1].mark)
    requires Qualifies(cfg, frames, r, last)
    ensures AllEnded(frames, [r] + rest) && Qualify(cfg, frames, [r] + rest, last)
  {
    var picks := [r] + rest;
    forall i | 0 <= i < |picks|
      ensures Ended(frames, picks[i]) && AllEnded(frames, picks)
              && Qualifies(cfg, frames, picks[i], MarkBefore(frames, picks, i, last))
    {
      assert forall k :: 0 < k < |picks| ==> picks[k] == rest[k - 1];
      if i > 0 {
        assert MarkBefore(frames, picks, i, last) == MarkBefore(frames, rest, i - 1, frames[r.last + 1].mark);
      }
    }
  }

  lemma {:induction false} FailsTestCons(cfg: Config, frames: seq<Frame>, r: Run, rest: seq<Run>, last: real, x: Run)
    requires Ended(frames, r) && AllEnded(frames, rest) && Ended(frames, x) && r.last < x.first
    requires FailsTest(cfg, frames, rest, frames[r.last + 1].mark, x)
    ensures AllEnded(frames, [r] + rest) && FailsTest(cfg, frames, [r] + rest, last, x)
  {
    if Lasts(frames, x) >= cfg.minDuration {
      var i: nat :| Between(rest, i, x) && Since(frames, x, MarkBefore(frames, rest, i, frames[r.last + 1].mark)) < cfg.minInterval;
      assert Between([r] + rest, i + 1, x);
      assert MarkBefore(frames, [r] + rest, i + 1, last) == MarkBefore(frames, rest, i, frames[r.last + 1].mark);
    }
  }

  lemma {:induction false} PickedAreRuns(cfg: Config, frames: seq<Frame>, runs: seq<Run>, last: real)
    requires InRange(frames, runs)
    ensures forall r :: r in Picked(cfg, frames, runs, last) ==> r in runs && Ended(frames, r)
    decreases |runs|
  {
    if runs != [] {
      if Qualifies(cfg, frames, runs[0], last) {
        PickedAreRuns(cfg, frames, runs[1..], frames[runs[0].last + 1].mark);
      } else {
        PickedAreRuns(cfg, frames, runs[1..], last);
      }
    }
  }

  lemma {:induction false} PickedAreOrdered(cfg: Config, frames: seq<Frame>, runs: seq<Run>, last: real)
    requires InRange(frames, runs) && Ordered(runs)
    ensures Ordered(Picked(cfg, frames, runs, last))
    decreases |runs|
  {
    if runs != [] {
      var next := if Qualifies(cfg, frames, runs[0], last) then frames[runs[0].last + 1].mark else last;
      PickedAreOrdered(cfg, frames, runs[1..], next);
      PickedAreRuns(cfg, frames, runs[1..], next);
      AllAfterFirst(runs);
      OrderedCons(runs[0], Picked(cfg, frames, runs[1..], next));
    }
  }

  lemma {:induction false} AllAfterFirst(runs: seq<Run>)
    requires runs != [] && Ordered(runs)
    ensures forall r :: r in runs[1..] ==> runs[0].last < r.first
  {
  }

  lemma {:induction false} OrderedCons(r: Run, rest: seq<Run>)
    requires Ordered(rest) && forall x :: x in rest ==> r.last < x.first
    ensures Ordered([r] + rest)
  {
  }

  lemma {:induction false} PickedQualify(cfg: Config, frames: seq<Frame>, runs: seq<Run>, last: real)
    requires InRange(frames, runs)
    ensures AllEnded(frames, Picked(cfg, frames, runs, last)) && Qualify(cfg, frames, Picked(cfg, frames, runs, last), last)
    decreases |runs|
  {
    if runs != [] {
      if Qualifies(cfg, frames, runs[0], last) {
        var mark := frames[runs[0].last + 1].mark;
        PickedQualify(cfg, frames, runs[1..], mark);
        QualifyCons(cfg, frames, runs[0], Picked(cfg, frames, runs[1..], mark), last);
      } else {
        PickedQualify(cfg, frames, runs[1..], last);
      }
    }
  }

  lemma {:induction false} PickedAre(cfg: Config, frames: seq<Frame>, runs: seq<Run>, last: real)
    requires InRange(frames, runs) && Ordered(runs)
    ensures var picks := Picked(cfg, frames, runs, last);
            AllEnded(frames, picks) && Ordered(picks) && Qualify(cfg, frames, picks, last)
            && forall r :: r in picks ==> r in runs
  {
    PickedAreRuns(cfg, frames, runs, last);
    PickedAreOrdered(cfg, frames, runs, last);
    PickedQualify(cfg, frames, runs, last);
  }

  lemma {:induction false} UnpickedFail(cfg: Config, frames: seq<Frame>, runs: seq<Run>, last: real, x: Run)
    requires InRange(frames, runs) && Ordered(runs) && x in runs && Ended(frames, x) && x !in Picked(cfg, frames, runs, last)
    ensures AllEnded(frames, Picked(cfg, frames, runs, last)) && FailsTest(cfg, frames, Picked(cfg, frames, runs, last), last, x)
    decreases |runs|
  {
    PickedAre(cfg, frames, runs, last);
    AllAfterFirst(runs);
    if Qualifies(cfg, frames, runs[0], last) {
      var mark := frames[runs[0].last + 1].mark;
      var rest := Picked(cfg, frames, runs[1..], mark);
      assert x in runs[1..] && x !in rest;
      UnpickedFail(cfg, frames, runs[1..], mark, x);
      FailsTestCons(cfg, frames, runs[0], rest, last, x);
    } else if x == runs[0] {
      var picks := Picked(cfg, frames, runs[1..], last);
      PickedAre(cfg, frames, runs[1..], last);
      assert Between(picks, 0, x);
      assert MarkBefore(frames, picks, 0, last) == last;
    } else {
      UnpickedFail(cfg, frames, runs[1..], last, x);
    }
  }

  /** The batch reading emits the events of the picked runs. */
  function EventsOf(frames: seq<Frame>, picks: seq<Run>): (r: seq<Event>)
    requires InRange(frames, picks)
    ensures |r| == |picks| && forall i :: 0 <= i < |picks| ==> r[i] == EventOf(frames, picks[i])
  {
    seq(|picks|, i requires 0 <= i < |picks| => EventOf(frames, picks[i]))
  }

  lemma {:induction false} EventsCons(frames: seq<Frame>, r: Run, rest: seq<Run>)
    requires r.first <= r.last < |frames| && InRange(frames, rest)
    ensures InRange(frames, [r] + rest) && EventsOf(frames, [r] + rest) == [EventOf(frames, r)] + EventsOf(frames, rest)
  {
  }

  lemma {:induction false} GreedyPicks(cfg: Config, frames: seq<Frame>, runs: seq<Run>, last: real)
    requires InRange(frames, runs)
    ensures InRange(frames, Picked(cfg, frames, runs, last))
    ensures Greedy(cfg, frames, runs, last) == EventsOf(frames, Picked(cfg, frames, runs, last))
    decreases |runs|
  {
    if runs != [] {
      var r, rest := runs[0], runs[1..];
      assert runs == [r] + rest;
      GreedyCons(cfg, frames, r, rest, last);
      if Qualifies(cfg, frames, r, last) {
        var mark := frames[r.last + 1].mark;
        GreedyPicks(cfg, frames, rest, mark);
        EventsCons(frames, r, Picked(cfg, frames, rest, mark));
      } else {
        GreedyPicks(cfg, frames, rest, last);
      }
    }
  }

  /** Frame `i` is at or above the threshold, with this label. */
  predicate Shows(cfg: Config, frames: seq<Frame>, i: int, name: string) {
    0 <= i < |frames| && frames[i].score >= cfg.threshold && frames[i].name == name
  }

  lemma {:induction false} RunShows(cfg: Config, frames: seq<Frame>, r: Run, i: nat)
    requires IsMaximalRun(cfg, frames, r) && r.first <= i <= r.last
    ensures Shows(cfg, frames, i, frames[r.first].name)
    decreases i
  {
    if i > r.first {
      assert Prolongs(cfg, frames, i);
      RunShows(cfg, frames, r, i - 1);
    }
  }

  /** A maximal run: every frame in it shows one label, and the frames next to it do not. */
  lemma {:induction false} MaximalRunIff(cfg: Config, frames: seq<Frame>, r: Run)
    ensures IsMaximalRun(cfg, frames, r) <==>
            && r.first <= r.last < |frames|
            && var name := frames[r.first].name;
               && (forall i :: r.first <= i <= r.last ==> Shows(cfg, frames, i, name))
               && !Shows(cfg, frames, r.first - 1, name) && !Shows(cfg, frames, r.last + 1, name)
  {
    if IsMaximalRun(cfg, frames, r) {
      forall i | r.first <= i <= r.last ensures Shows(cfg, frames, i, frames[r.first].name) {
        RunShows(cfg, frames, r, i);
      }
      assert Shows(cfg, frames, r.last, frames[r.first].name);
    } else if r.first <= r.last < |frames| {
      var name := frames[r.first].name;
      if forall i :: r.first <= i <= r.last ==> Shows(cfg, frames, i, name) {
        assert Shows(cfg, frames, r.first, name) && Shows(cfg, frames, r.last, name);
        forall k | r.first < k <= r.last ensures Prolongs(cfg, frames, k) {
          assert Shows(cfg, frames, k, name) && Shows(cfg, frames, k - 1, name);
        }
      }
    }
  }

  /** What the machine emits are the events of maximal runs that a later frame ended, in order. Each lasts at
      least the minimum duration and comes at least the minimum interval after the mark of the one before; and
      every ended maximal run that is not emitted fails one of the two. */
  lemma {:induction false} EmissionsMean(cfg: Config, frames: seq<Frame>, last: real) returns (picks: seq<Run>)
    ensures AllEnded(frames, picks) && Ordered(picks) && Qualify(cfg, frames, picks, last)
    ensures forall i :: 0 <= i < |picks| ==> IsMaximalRun(cfg, frames, picks[i])
    ensures var events := Batch(cfg, frames, last);
            |events| == |picks| && forall i :: 0 <= i < |picks| ==> events[i] == EventOf(frames, picks[i])
    ensures forall r :: IsMaximalRun(cfg, frames, r) && Ended(frames, r) && r !in picks ==>
              FailsTest(cfg, frames, picks, last, r)
  {
    var runs := Runs(cfg, frames, 0);
    RunsAreInRange(cfg, frames, 0);
    RunsAreOrdered(cfg, frames, 0);
    picks := Picked(cfg, frames, runs, last);
    PickedAre(cfg, frames, runs, last);
    GreedyPicks(cfg, frames, runs, last);
    forall i | 0 <= i < |picks| ensures IsMaximalRun(cfg, frames, picks[i]) {
      RunsAreTheMaximalRuns(cfg, frames, 0, picks[i]);
    }
    forall r | IsMaximalRun(cfg, frames, r) && Ended(frames, r) && r !in picks ensures FailsTest(cfg, frames, picks, last, r) {
      RunsAreTheMaximalRuns(cfg, frames, 0, r);
      UnpickedFail(cfg, frames, runs, last, r);
    }
  }
}
