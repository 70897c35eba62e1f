/**
 `gc_old_versions` (src/link/app/updater.py:721-757): which version directories
 survive an update.
 */
module VersionGc {
  import opened Common

  datatype Entry = Entry(name: string, mtime: int)

  // ------------------------------------------------ newest-first, stable sort

  predicate NewestFirst(s: seq<Entry>) {
    forall i, j :: 0 <= i < j < |s| ==> s[i].mtime >= s[j].mtime
  }

  predicate DistinctNames(s: seq<Entry>) {
    forall i, j :: 0 <= i < j < |s| ==> s[i].name != s[j].name
  }

  function Insert(e: Entry, s: seq<Entry>): (r: seq<Entry>) {
    if s == [] || e.mtime >= s[0].mtime then [e] + s else [s[0]] + Insert(e, s[1..])
  }

  /** `sorted(..., key=mtime, reverse=True)` */
  function SortNewestFirst(s: seq<Entry>): (r: seq<Entry>) {
    if s == [] then [] else Insert(s[0], SortNewestFirst(s[1..]))
  }

  lemma {:induction false} InsertMembers(e: Entry, s: seq<Entry>)
    ensures multiset(Insert(e, s)) == multiset(s) + multiset{e}
    ensures forall x :: x in Insert(e, s) <==> x == e || x in s
    decreases |s|
  {
    if s != [] && e.mtime < s[0].mtime {
      InsertMembers(e, s[1..]);
      assert s == [s[0]] + s[1..];
    }
  }

  lemma {:induction false} InsertOrders(e: Entry, s: seq<Entry>)
    requires NewestFirst(s)
    ensures NewestFirst(Insert(e, s))
    decreases |s|
  {
    if s != [] && e.mtime < s[0].mtime {
      var rest := Insert(e, s[1..]);
      InsertOrders(e, s[1..]);
      InsertMembers(e, s[1..]);
      forall j | 0 <= j < |rest| ensures s[0].mtime >= rest[j].mtime {
        assert rest[j] in rest;
      }
    }
  }

  lemma {:induction false} InsertKeepsDistinct(e: Entry, s: seq<Entry>)
    requires DistinctNames(s) && forall x :: x in s ==> x.name != e.name
    ensures DistinctNames(Insert(e, s))
    decreases |s|
  {
    if s != [] && e.mtime < s[0].mtime {
      var rest := Insert(e, s[1..]);
      InsertKeepsDistinct(e, s[1..]);
      InsertMembers(e, s[1..]);
      forall j | 0 <= j < |rest| ensures s[0].name != rest[j].name {
        assert rest[j] in rest;
      }
    }
  }

  lemma {:induction false} SortOrders(s: seq<Entry>)
    ensures NewestFirst(SortNewestFirst(s))
    decreases |s|
  {
    if s != [] {
      SortOrders(s[1..]);
      InsertOrders(s[0], SortNewestFirst(s[1..]));
    }
  }

  lemma {:induction false} SortPermutes(s: seq<Entry>)
    ensures multiset(SortNewestFirst(s)) == multiset(s)
    ensures forall x :: x in SortNewestFirst(s) <==> x in s
    decreases |s|
  {
    if s != [] {
      SortPermutes(s[1..]);
      InsertMembers(s[0], SortNewestFirst(s[1..]));
      assert s == [s[0]] + s[1..];
    }
  }

  lemma {:induction false} SortKeepsDistinct(s: seq<Entry>)
    requires DistinctNames(s)
    ensures DistinctNames(SortNewestFirst(s))
    decreases |s|
  {
    if s != [] {
      SortKeepsDistinct(s[1..]);
      SortPermutes(s[1..]);
      InsertKeepsDistinct(s[0], SortNewestFirst(s[1..]));
    }
  }

  /** The sort is an ordered permutation of its input. */
  lemma {:induction false} SortIsCorrect(s: seq<Entry>)
    ensures NewestFirst(SortNewestFirst(s))
    ensures multiset(SortNewestFirst(s)) == multiset(s)
    ensures forall x :: x in SortNewestFirst(s) <==> x in s
    ensures DistinctNames(s) ==> DistinctNames(SortNewestFirst(s))
  {
    SortOrders(s);
    SortPermutes(s);
    if DistinctNames(s) {
      SortKeepsDistinct(s);
    }
  }

  // ------------------------------------------------------------- what is kept

  /** The keepers loop: pinned names first, then candidates in order while there is room. */
  function Keepers(kept: set<string>, order: seq<string>, keep: int): (r: set<string>)
    ensures kept <= r
    decreases |order|
  {
    if order == [] || |kept| >= keep then kept else Keepers(kept + {order[0]}, order[1..], keep)
  }

  function Names(s: seq<Entry>): (r: seq<string>)
    ensures |r| == |s| && forall i :: 0 <= i < |s| ==> r[i] == s[i].name
  {
    seq(|s|, i requires 0 <= i < |s| => s[i].name)
  }

  function Max(a: int, b: int): int { if a >= b then a else b }

  lemma {:induction false} KeepersBounded(kept: set<string>, order: seq<string>, keep: int)
    ensures |Keepers(kept, order, keep)| <= Max(keep, |kept|)
    decreases |order|
  {
    if order != [] && |kept| < keep {
      KeepersBounded(kept + {order[0]}, order[1..], keep);
    }
  }

  /** A candidate left out of the keepers means the room ran out before it, so
      whatever else was added on the way came earlier in the order. */
  lemma {:induction false} KeepersTakeAPrefix(kept: set<string>, order: seq<string>, keep: int, i: nat, j: nat)
    requires i < |order| && j < |order|
    requires order[i] !in Keepers(kept, order, keep)
    requires order[j] in Keepers(kept, order, keep) && order[j] !in kept
    ensures exists k :: 0 <= k < i && order[k] == order[j]
    decreases |order|
  {
    if |kept| < keep {
      var kept', rest := kept + {order[0]}, order[1..];
      assert i > 0;
      if order[j] == order[0] {
        assert order[0] == order[j];
      } else {
        assert rest[i - 1] == order[i] && rest[j - 1] == order[j];
        KeepersTakeAPrefix(kept', rest, keep, i - 1, j - 1);
        var k :| 0 <= k < i - 1 && rest[k] == rest[j - 1];
        assert order[k + 1] == order[j];
      }
    }
  }

  /** A candidate is left out only when there is no room for it. */
  lemma {:induction false} KeepersFillTheRoom(kept: set<string>, order: seq<string>, keep: int, i: nat)
    requires i < |order| && order[i] !in Keepers(kept, order, keep)
    ensures |Keepers(kept, order, keep)| >= keep
    decreases |order|
  {
    if |kept| < keep {
      assert order[i] != order[0] && order[1..][i - 1] == order[i];
      KeepersFillTheRoom(kept + {order[0]}, order[1..], keep, i - 1);
    }
  }

  // ------------------------------------------------------------ the procedure

  function Pinned(current: Option<string>, previous: Option<string>): (r: set<string>)
    ensures |r| <= 2
    ensures forall v :: v in r <==> v != "" && (current == Some(v) || previous == Some(v))
  {
    (if current.Some? && current.value != "" then {current.value} else {})
    + (if previous.Some? && previous.value != "" then {previous.value} else {})
  }

  /** The names left on disk. */
  function Survivors(entries: seq<Entry>, removed: seq<string>): (r: set<string>) {
    set e | e in entries && e.name !in removed :: e.name
  }

  lemma {:induction false} SubsetSize<T>(a: set<T>, b: set<T>)
    requires a <= b
    ensures |a| <= |b|
    decreases a
  {
    if a != {} {
      var x :| x in a;
      SubsetSize(a - {x}, b - {x});
    }
  }

  /** Remove every candidate that is not kept; a removal that raises is skipped. */
  method RemoveOthers(candidates: seq<Entry>, keepers: set<string>, stuck: set<string>) returns (removed: seq<string>)
    requires DistinctNames(candidates)
    ensures forall n :: n in removed ==> n !in keepers && n !in stuck && exists e :: e in candidates && e.name == n
    ensures forall e :: e in candidates && e.name !in keepers && e.name !in stuck ==> e.name in removed
    ensures forall i, j :: 0 <= i < j < |removed| ==> removed[i] != removed[j]
  {
    removed := [];
    var i := 0;
    while i < |candidates|
      invariant 0 <= i <= |candidates|
      invariant forall k :: 0 <= k < i && candidates[k].name !in keepers && candidates[k].name !in stuck ==>
                  candidates[k].name in removed
      invariant forall n :: n in removed ==>
                  n !in keepers && n !in stuck && exists k :: 0 <= k < i && candidates[k].name == n
      invariant forall a, b :: 0 <= a < b < |removed| ==> removed[a] != removed[b]
    {
      if candidates[i].name !in keepers && candidates[i].name !in stuck {
        removed := removed + [candidates[i].name];
      }
      i := i + 1;
    }
  }

  /** `entries` are the directories of versions/ not named `*.tmp`, in directory
      order; `stuck` are those whose removal raises. */
  method CollectOldVersions(entries: seq<Entry>, current: Option<string>, previous: Option<string>,
                            keep: int, stuck: set<string>)
    returns (removed: seq<string>)
    requires DistinctNames(entries)
    // What goes was a candidate that could be removed, goes once, and was not pinned.
    ensures forall n :: n in removed ==> n !in Pinned(current, previous) && n !in stuck
    ensures forall n :: n in removed ==> exists e :: e in entries && e.name == n
    ensures forall i, j :: 0 <= i < j < |removed| ==> removed[i] != removed[j]
    // The bound, when removals succeed.
    ensures stuck == {} ==> |Survivors(entries, removed)| <= Max(keep, |Pinned(current, previous)|)
    // Nothing goes while there is room for it.
    ensures (exists e :: e in entries && e.name in removed) ==>
              |Keepers(Pinned(current, previous), Names(SortNewestFirst(entries)), keep)| >= keep
    // An unpinned survivor that could have been removed is at least as new as every removed one.
    ensures forall a, b :: a in entries && b in entries && a.name !in removed && b.name in removed ==>
              a.name in Pinned(current, previous) || a.name in stuck || a.mtime >= b.mtime
    // Exactly the candidates outside the keepers go.
    ensures forall e :: e in entries ==>
              (e.name in removed <==>
                 e.name !in Keepers(Pinned(current, previous), Names(SortNewestFirst(entries)), keep) && e.name !in stuck)
  {
    var pinned := Pinned(current, previous);
    var candidates := SortNewestFirst(entries);
    var keepers := pinned;
    ghost var all := Keepers(pinned, Names(candidates), keep);
    var i := 0;
    assert Names(candidates)[0..] == Names(candidates);
    while i < |candidates| && |keepers| < keep
      invariant 0 <= i <= |candidates|
      invariant Keepers(keepers, Names(candidates)[i..], keep) == all
    {
      assert Names(candidates)[i..][0] == candidates[i].name;
      assert Names(candidates)[i..][1..] == Names(candidates)[i + 1..];
      keepers := keepers + {candidates[i].name};
      i := i + 1;
    }
    SortIsCorrect(entries);
    removed := RemoveOthers(candidates, keepers, stuck);
    RoomIsFilled(entries, removed, pinned, keep, stuck);
    SurvivorsAreBounded(entries, removed, pinned, keep, stuck);
    SurvivorsAreRecent(entries, removed, pinned, keep, stuck);
  }

  // `removed` is what the second loop leaves: the candidates outside the keepers.
  ghost predicate RemovesTheRest(entries: seq<Entry>, removed: seq<string>, pinned: set<string>, keep: int, stuck: set<string>) {
    forall e :: e in entries ==>
      (e.name in removed <==> e.name !in Keepers(pinned, Names(SortNewestFirst(entries)), keep) && e.name !in stuck)
  }

  lemma {:induction false} RoomIsFilled(entries: seq<Entry>, removed: seq<string>, pinned: set<string>, keep: int, stuck: set<string>)
    requires RemovesTheRest(entries, removed, pinned, keep, stuck)
    ensures (exists e :: e in entries && e.name in removed) ==> |Keepers(pinned, Names(SortNewestFirst(entries)), keep)| >= keep
  {
    if e :| e in entries && e.name in removed {
      SortIsCorrect(entries);
      var k :| 0 <= k < |SortNewestFirst(entries)| && SortNewestFirst(entries)[k] == e;
      KeepersFillTheRoom(pinned, Names(SortNewestFirst(entries)), keep, k);
    }
  }

  lemma {:induction false} SurvivorsAreBounded(entries: seq<Entry>, removed: seq<string>, pinned: set<string>, keep: int, stuck: set<string>)
    requires RemovesTheRest(entries, removed, pinned, keep, stuck)
    ensures stuck == {} ==> |Survivors(entries, removed)| <= Max(keep, |pinned|)
  {
    if stuck == {} {
      var order := Names(SortNewestFirst(entries));
      KeepersBounded(pinned, order, keep);
      SubsetSize(Survivors(entries, removed), Keepers(pinned, order, keep));
    }
  }

  lemma {:induction false} SurvivorsAreRecent(entries: seq<Entry>, removed: seq<string>, pinned: set<string>, keep: int, stuck: set<string>)
    requires DistinctNames(entries) && RemovesTheRest(entries, removed, pinned, keep, stuck)
    ensures forall a, b :: a in entries && b in entries && a.name !in removed && b.name in removed ==>
              a.name in pinned || a.name in stuck || a.mtime >= b.mtime
  {
    forall a, b | a in entries && b in entries && a.name !in removed && b.name in removed
      && a.name !in pinned && a.name !in stuck
      ensures a.mtime >= b.mtime
    {
      SortIsCorrect(entries);
      KeptIsRecent(SortNewestFirst(entries), pinned, keep, a, b);
    }
  }

  lemma {:induction false} KeptIsRecent(sorted: seq<Entry>, pinned: set<string>, keep: int, a: Entry, b: Entry)
    requires NewestFirst(sorted) && DistinctNames(sorted) && a in sorted && b in sorted && a.name !in pinned
    requires a.name in Keepers(pinned, Names(sorted), keep) && b.name !in Keepers(pinned, Names(sorted), keep)
    ensures a.mtime >= b.mtime
  {
    var i :| 0 <= i < |sorted| && sorted[i] == b;
    var j :| 0 <= j < |sorted| && sorted[j] == a;
    var order := Names(sorted);
    KeepersTakeAPrefix(pinned, order, keep, i, j);
    var k :| 0 <= k < i && order[k] == order[j];
    assert sorted[k].name == sorted[j].name && k == j;
  }
}
