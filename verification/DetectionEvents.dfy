/**
 The detection-event state machine of the image and audio classifiers
 (plugins/image_classifier/adapter.py:335-393, plugins/audio_classifier/adapter.py:275-318):
 an online debouncer of (label, score) frames, against a batch reading of the stream.
 */
module DetectionEvents {
  import opened Common

  // One inference result and the clock as it is read while the frame is processed:
  // on entry, for the interval test, and when an emission is recorded.
  datatype Frame = Frame(name: string, score: real, now: real, check: real, mark: real)

  datatype Event = Event(name: string, start: real, end: real, maxConf: real)

  datatype Config = Config(threshold: real, minDuration: real, minInterval: real)

  // ------------------------------------------------------- the batch reading

  predicate Above(cfg: Config, f: Frame) { f.score >= cfg.threshold }

  /** Frame `i` prolongs the run that the frame before it is in. */
  predicate Prolongs(cfg: Config, frames: seq<Frame>, i: nat)
    requires 0 < i < |frames|
  {
    Above(cfg, frames[i - 1]) && Above(cfg, frames[i]) && frames[i - 1].name == frames[i].name
  }

  datatype Run = Run(first: nat, last: nat)

  /** A maximal stretch of consecutive above-threshold frames with one label. */
  predicate IsMaximalRun(cfg: Config, frames: seq<Frame>, r: Run) {
    && r.first <= r.last < |frames|
    && Above(cfg, frames[r.first])
    && (forall k :: r.first < k <= r.last ==> Prolongs(cfg, frames, k))
    && (r.first == 0 || !Prolongs(cfg, frames, r.first))
    && (r.last + 1 == |frames| || !Prolongs(cfg, frames, r.last + 1))
  }

  function RunEnd(cfg: Config, frames: seq<Frame>, i: nat): (j: nat)
    requires i < |frames|
    ensures i <= j < |frames|
    ensures forall k :: i < k <= j ==> Prolongs(cfg, frames, k)
    ensures j + 1 < |frames| ==> !Prolongs(cfg, frames, j + 1)
    decreases |frames| - i
  {
    if i + 1 < |frames| && Prolongs(cfg, frames, i + 1) then RunEnd(cfg, frames, i + 1) else i
  }

  /** The runs that start at or after `i`, in order. */
  function Runs(cfg: Config, frames: seq<Frame>, i: nat): (r: seq<Run>)
    requires i <= |frames|
    decreases |frames| - i
  {
    if i == |frames| then []
    else if !Above(cfg, frames[i]) then Runs(cfg, frames, i + 1)
    else
      var j := RunEnd(cfg, frames, i);
      [Run(i, j)] + Runs(cfg, frames, j + 1)
  }

  function MaxScore(frames: seq<Frame>, first: nat, last: nat): (m: real)
    requires first <= last < |frames|
    ensures exists k :: first <= k <= last && frames[k].score == m
    ensures forall k :: first <= k <= last ==> frames[k].score <= m
    decreases last
  {
    if first == last then frames[first].score
    else
      Max(MaxScore(frames, first, last - 1), frames[last].score)
  }

  function EventOf(frames: seq<Frame>, r: Run): (e: Event)
    requires r.first <= r.last < |frames|
  {
    Event(frames[r.first].name, frames[r.first].now, frames[r.last].now, MaxScore(frames, r.first, r.last))
  }

  /** Long enough, and long enough after the last emission. */
  predicate Passes(cfg: Config, e: Event, last: real, breaker: Frame) {
    e.end - e.start >= cfg.minDuration && breaker.check - last >= cfg.minInterval
  }

  /** The batch specification: every run that a later frame ended, filtered greedily. */
  function Greedy(cfg: Config, frames: seq<Frame>, runs: seq<Run>, last: real): (r: seq<Event>)
    requires forall k :: 0 <= k < |runs| ==> runs[k].first <= runs[k].last < |frames|
    decreases |runs|
  {
    if runs == [] then []
    else if runs[0].last + 1 == |frames| then Greedy(cfg, frames, runs[1..], last)
    else
      var e, breaker := EventOf(frames, runs[0]), frames[runs[0].last + 1];
      if Passes(cfg, e, last, breaker) then [e] + Greedy(cfg, frames, runs[1..], breaker.mark)
      else Greedy(cfg, frames, runs[1..], last)
  }

  function BatchFrom(cfg: Config, frames: seq<Frame>, i: nat, last: real): (r: seq<Event>)
    requires i <= |frames|
  {
    RunsAreInRange(cfg, frames, i);
    Greedy(cfg, frames, Runs(cfg, frames, i), last)
  }

  function Batch(cfg: Config, frames: seq<Frame>, last: real): (r: seq<Event>) {
    BatchFrom(cfg, frames, 0, last)
  }

  lemma {:induction false} RunsAreInRange(cfg: Config, frames: seq<Frame>, i: nat)
    requires i <= |frames|
    ensures forall k :: 0 <= k < |Runs(cfg, frames, i)| ==>
              i <= Runs(cfg, frames, i)[k].first <= Runs(cfg, frames, i)[k].last < |frames|
    decreases |frames| - i
  {
    if i < |frames| {
      if !Above(cfg, frames[i]) {
        RunsAreInRange(cfg, frames, i + 1);
      } else {
        RunsAreInRange(cfg, frames, RunEnd(cfg, frames, i) + 1);
      }
    }
  }

  /** `Runs` lists exactly the maximal runs. */
  lemma {:induction false} RunsAreTheMaximalRuns(cfg: Config, frames: seq<Frame>, i: nat, r: Run)
    requires i <= |frames|
    requires i == 0 || i == |frames| || !Prolongs(cfg, frames, i)
    ensures r in Runs(cfg, frames, i) <==> i <= r.first && IsMaximalRun(cfg, frames, r)
    decreases |frames| - i
  {
    if i < |frames| {
      if !Above(cfg, frames[i]) {
        RunsAreTheMaximalRuns(cfg, frames, i + 1, r);
      } else {
        var j := RunEnd(cfg, frames, i);
        RunsAreTheMaximalRuns(cfg, frames, j + 1, r);
        if IsMaximalRun(cfg, frames, r) && i <= r.first <= j {
          // Inside the run [i, j] only its own first frame starts one, and only j ends it.
          assert r.first == i;
          assert r.last == j;
        }
        if r == Run(i, j) {
          assert IsMaximalRun(cfg, frames, r);
        }
      }
    }
  }

  /** In order and without overlap, so each of them once. */
  lemma {:induction false} RunsAreOrdered(cfg: Config, frames: seq<Frame>, i: nat)
    requires i <= |frames|
    ensures forall k, l :: 0 <= k < l < |Runs(cfg, frames, i)| ==> Runs(cfg, frames, i)[k].last < Runs(cfg, frames, i)[l].first
    decreases |frames| - i
  {
    if i < |frames| {
      var next := if Above(cfg, frames[i]) then RunEnd(cfg, frames, i) + 1 else i + 1;
      RunsAreOrdered(cfg, frames, next);
      RunsAreInRange(cfg, frames, next);
    }
  }

  // ------------------------------------------------------- the online machine

  /** One frame: a frame that prolongs the open event only extends it; any other frame
      closes the open event, and emits it if it passes. */
  ghost predicate Processed(cfg: Config, f: Frame, cur: Option<Event>, last: real,
                            cur': Option<Event>, last': real, out: Option<Event>) {
    if Above(cfg, f) && cur.Some? && cur.value.name == f.name then
      && out == None && last' == last
      && cur' == Some(cur.value.(maxConf := Max(cur.value.maxConf, f.score), end := f.now))
    else
      && cur' == (if Above(cfg, f) then Some(Event(f.name, f.now, f.now, f.score)) else None)
      && out == (if cur.Some? && Passes(cfg, cur.value, last, f) then cur else None)
      && last' == (if out.Some? then f.mark else last)
  }

  function Max(a: real, b: real): (m: real) { if a >= b then a else b }

  class Classifier {
    const cfg: Config
    var current: Option<Event>
    var lastLabel: Option<string>
    var lastEventTime: real

    constructor (cfg: Config)
      ensures this.cfg == cfg && current == None && lastLabel == None && lastEventTime == 0.0
    {
      this.cfg := cfg;
      current, lastLabel, lastEventTime := None, None, 0.0;
    }

    predicate Valid()
      reads this
    {
      if current.Some? then lastLabel == Some(current.value.name) else lastLabel == None
    }

    /** `_finalise_event` */
    method FinaliseEvent(f: Frame) returns (out: Option<Event>)
      modifies this`lastEventTime
      ensures out == if current.Some? && Passes(cfg, current.value, old(lastEventTime), f) then current else None
      ensures lastEventTime == if out.Some? then f.mark else old(lastEventTime)
    {
      if current.None? {
        return None;
      }
      var duration := current.value.end - current.value.start;
      var interval := f.check - lastEventTime;
      if duration >= cfg.minDuration && interval >= cfg.minInterval {
        lastEventTime := f.mark;
        return current;
      }
      return None;
    }

    /** `_process_event_state` */
    method ProcessEventState(f: Frame) returns (out: Option<Event>)
      requires Valid()
      modifies this
      ensures Valid()
      ensures Processed(cfg, f, old(current), old(lastEventTime), current, lastEventTime, out)
    {
      out := None;
      if f.score >= cfg.threshold {
        if current.Some? && Some(f.name) == lastLabel {
          var e := current.value;
          current := Some(e.(maxConf := Max(e.maxConf, f.score), end := f.now));
        } else {
          if current.Some? {
            out := FinaliseEvent(f);
          }
          current := Some(Event(f.name, f.now, f.now, f.score));
          lastLabel := Some(f.name);
        }
      } else {
        if current.Some? {
          out := FinaliseEvent(f);
          current := None;
        }
        lastLabel := None;
      }
    }

    /** The machine, fed any stream frame by frame, emits what the batch reading lists. */
    method ProcessStream(frames: seq<Frame>) returns (emitted: seq<Event>)
      requires Valid() && current.None?
      modifies this
      ensures Valid()
      ensures emitted == Batch(cfg, frames, old(lastEventTime))
    {
      emitted := [];
      var k := 0;
      ghost var s := 0;  // where the open run starts, or k
      ghost var all := Batch(cfg, frames, lastEventTime);
      ProgressBegins(cfg, frames, lastEventTime);
      while k < |frames|
        invariant 0 <= k <= |frames| && Valid()
        invariant Progress(cfg, frames, s, k, current, lastEventTime, emitted, all)
      {
        ghost var before, lastBefore := current, lastEventTime;
        var out := ProcessEventState(frames[k]);
        s := StepEmits(cfg, frames, s, k, before, lastBefore, current, lastEventTime, out, emitted, all);
        if out.Some? {
          emitted := emitted + [out.value];
        }
        k := k + 1;
      }
      ProgressEnds(cfg, frames, s, k, current, lastEventTime, emitted, all);
    }
  }

  /** The open event describes the frames from `s` up to `k`. */
  ghost predicate Open(cfg: Config, frames: seq<Frame>, s: nat, k: nat, e: Event) {
    && s < k <= |frames| && Above(cfg, frames[s])
    && (forall i :: s < i < k ==> Prolongs(cfg, frames, i))
    && e == EventOf(frames, Run(s, k - 1))
  }

  ghost predicate Tracks(cfg: Config, frames: seq<Frame>, s: nat, k: nat, cur: Option<Event>) {
    && s <= k <= |frames| && (cur.None? ==> s == k)
    && (cur.Some? ==> Open(cfg, frames, s, k, cur.value))
  }

  /** What has been emitted, and what the batch reading lists from the open run on, are all there is. */
  ghost predicate Progress(cfg: Config, frames: seq<Frame>, s: nat, k: nat, cur: Option<Event>, last: real,
                           emitted: seq<Event>, all: seq<Event>) {
    Tracks(cfg, frames, s, k, cur) && emitted + BatchFrom(cfg, frames, s, last) == all
  }

  lemma {:induction false} RunEndReaches(cfg: Config, frames: seq<Frame>, s: nat, k: nat)
    requires s < k <= |frames| && forall i :: s < i < k ==> Prolongs(cfg, frames, i)
    ensures RunEnd(cfg, frames, s) == RunEnd(cfg, frames, k - 1)
    decreases k - s
  {
    if s + 1 < k {
      assert Prolongs(cfg, frames, s + 1);
      RunEndReaches(cfg, frames, s + 1, k);
    }
  }

  lemma {:induction false} SameLabel(cfg: Config, frames: seq<Frame>, s: nat, k: nat)
    requires s < k <= |frames| && Above(cfg, frames[s])
    requires forall i :: s < i < k ==> Prolongs(cfg, frames, i)
    ensures frames[k - 1].name == frames[s].name && Above(cfg, frames[k - 1])
    decreases k
  {
    if s + 1 < k {
      assert Prolongs(cfg, frames, k - 1);
      SameLabel(cfg, frames, s, k - 1);
    }
  }

  lemma {:induction false} RunGoesOn(cfg: Config, frames: seq<Frame>, s: nat, k: nat, e: Event)
    requires k < |frames| && Open(cfg, frames, s, k, e) && Prolongs(cfg, frames, k)
    ensures Open(cfg, frames, s, k + 1, e.(maxConf := Max(e.maxConf, frames[k].score), end := frames[k].now))
  {
  }

  lemma {:induction false} GreedyCons(cfg: Config, frames: seq<Frame>, r: Run, rest: seq<Run>, last: real)
    requires r.first <= r.last < |frames|
    requires forall k :: 0 <= k < |rest| ==> rest[k].first <= rest[k].last < |frames|
    ensures Greedy(cfg, frames, [r] + rest, last) ==
            if r.last + 1 < |frames| && Passes(cfg, EventOf(frames, r), last, frames[r.last + 1])
            then [EventOf(frames, r)] + Greedy(cfg, frames, rest, frames[r.last + 1].mark)
            else Greedy(cfg, frames, rest, last)
  {
    assert ([r] + rest)[1..] == rest;
  }

  lemma {:induction false} RunIsFirst(cfg: Config, frames: seq<Frame>, s: nat, k: nat)
    requires s < k <= |frames| && Above(cfg, frames[s])
    requires forall i :: s < i < k ==> Prolongs(cfg, frames, i)
    requires k == |frames| || !Prolongs(cfg, frames, k)
    ensures Runs(cfg, frames, s) == [Run(s, k - 1)] + Runs(cfg, frames, k)
  {
    RunEndReaches(cfg, frames, s, k);
  }

  // The batch reading from a run that some frame ends: that run, and then the reading from its end.
  lemma {:induction false} BatchCons(cfg: Config, frames: seq<Frame>, r: Run, last: real)
    requires r.first <= r.last < |frames| - 1 && Runs(cfg, frames, r.first) == [r] + Runs(cfg, frames, r.last + 1)
    ensures BatchFrom(cfg, frames, r.first, last) ==
            if Passes(cfg, EventOf(frames, r), last, frames[r.last + 1])
            then [EventOf(frames, r)] + BatchFrom(cfg, frames, r.last + 1, frames[r.last + 1].mark)
            else BatchFrom(cfg, frames, r.last + 1, last)
  {
    RunsAreInRange(cfg, frames, r.last + 1);
    GreedyCons(cfg, frames, r, Runs(cfg, frames, r.last + 1), last);
  }

  lemma {:induction false} RunBreaks(cfg: Config, frames: seq<Frame>, s: nat, k: nat, e: Event, last: real)
    requires k < |frames| && Open(cfg, frames, s, k, e) && !Prolongs(cfg, frames, k)
    ensures BatchFrom(cfg, frames, s, last) ==
            if Passes(cfg, e, last, frames[k]) then [e] + BatchFrom(cfg, frames, k, frames[k].mark)
            else BatchFrom(cfg, frames, k, last)
  {
    RunIsFirst(cfg, frames, s, k);
    BatchCons(cfg, frames, Run(s, k - 1), last);
  }

  // One frame of the machine is one step along the batch reading.
  lemma {:induction false} StepMatches(cfg: Config, frames: seq<Frame>, s: nat, k: nat, cur: Option<Event>, last: real,
                    cur': Option<Event>, last': real, out: Option<Event>) returns (s': nat)
    requires k < |frames| && Tracks(cfg, frames, s, k, cur)
    requires Processed(cfg, frames[k], cur, last, cur', last', out)
    ensures s' <= k + 1 && Tracks(cfg, frames, s', k + 1, cur')
    ensures BatchFrom(cfg, frames, s, last) == (if out.Some? then [out.value] else []) + BatchFrom(cfg, frames, s', last')
  {
    if cur.Some? {
      SameLabel(cfg, frames, s, k);
    }
    if cur.Some? && Prolongs(cfg, frames, k) {
      RunGoesOn(cfg, frames, s, k, cur.value);
      s' := s;
    } else {
      if cur.Some? {
        RunBreaks(cfg, frames, s, k, cur.value, last);
      }
      s' := if Above(cfg, frames[k]) then k else k + 1;
      assert BatchFrom(cfg, frames, k, last') == BatchFrom(cfg, frames, s', last');
    }
  }

  // What was emitted before and what is left to emit add up to the same after the frame.
  lemma {:induction false} StepEmits(cfg: Config, frames: seq<Frame>, s: nat, k: nat, cur: Option<Event>, last: real,
                  cur': Option<Event>, last': real, out: Option<Event>, emitted: seq<Event>, all: seq<Event>) returns (s': nat)
    requires k < |frames| && Progress(cfg, frames, s, k, cur, last, emitted, all)
    requires Processed(cfg, frames[k], cur, last, cur', last', out)
    ensures Progress(cfg, frames, s', k + 1, cur', last', if out.Some? then emitted + [out.value] else emitted, all)
  {
    s' := StepMatches(cfg, frames, s, k, cur, last, cur', last', out);
    AddsUp(emitted, out, BatchFrom(cfg, frames, s', last'));
  }

  lemma {:induction false} ProgressBegins(cfg: Config, frames: seq<Frame>, last: real)
    ensures Progress(cfg, frames, 0, 0, None, last, [], Batch(cfg, frames, last))
  {
    AddsUp([], None, Batch(cfg, frames, last));
  }

  lemma {:induction false} ProgressEnds(
    cfg: Config, frames: seq<Frame>, s: nat, k: nat, cur: Option<Event>, last: real, emitted: seq<Event>, all: seq<Event>)
    requires k == |frames| && Progress(cfg, frames, s, k, cur, last, emitted, all)
    ensures emitted == all
  {
    LastRunStaysOpen(cfg, frames, s, cur, last);
  }

  lemma {:induction false} AddsUp(a: seq<Event>, out: Option<Event>, b: seq<Event>)
    ensures a + ((if out.Some? then [out.value] else []) + b) == (if out.Some? then a + [out.value] else a) + b
  {
  }

  // The run the stream ends in is never emitted.
  lemma {:induction false} LastRunStaysOpen(cfg: Config, frames: seq<Frame>, s: nat, cur: Option<Event>, last: real)
    requires Tracks(cfg, frames, s, |frames|, cur)
    ensures BatchFrom(cfg, frames, s, last) == []
  {
    if cur.Some? {
      RunIsFirst(cfg, frames, s, |frames|);
      GreedyCons(cfg, frames, Run(s, |frames| - 1), [], last);
    }
  }
}
