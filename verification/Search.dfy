/** Substring search, as Python's `find` and Rust's `str::find` define it. */
module Search {

  predicate MatchAt<T(==)>(s: seq<T>, i: nat, pat: seq<T>) {
    i + |pat| <= |s| && s[i..i + |pat|] == pat
  }

  /** The first match, or -1. */
  function Find<T(==)>(s: seq<T>, pat: seq<T>): (r: int)
    ensures r == -1 || 0 <= r <= |s| - |pat|
    decreases |s|
  {
    if |s| < |pat| then -1
    else if s[..|pat|] == pat then 0
    else if s == [] then -1
    else
      var r := Find(s[1..], pat);
      if r < 0 then -1 else r + 1
  }

  lemma {:induction false} ShiftMatch<T>(s: seq<T>, pat: seq<T>, i: nat)
    requires s != []
    ensures MatchAt(s[1..], i, pat) <==> MatchAt(s, i + 1, pat)
  {
    if i + 1 + |pat| <= |s| {
      assert s[1..][i..i + |pat|] == s[i + 1..i + 1 + |pat|];
    }
  }

  lemma {:induction false} FindMatches<T>(s: seq<T>, pat: seq<T>)
    ensures Find(s, pat) >= 0 ==> MatchAt(s, Find(s, pat), pat)
    decreases |s|
  {
    if |s| >= |pat| && s[..|pat|] != pat && s != [] {
      FindMatches(s[1..], pat);
      if Find(s[1..], pat) >= 0 {
        ShiftMatch(s, pat, Find(s[1..], pat));
      }
    }
  }

  lemma {:induction false} FindIsFirst<T>(s: seq<T>, pat: seq<T>, i: nat)
    requires MatchAt(s, i, pat)
    ensures 0 <= Find(s, pat) <= i
    decreases |s|
  {
    if s[..|pat|] != pat {
      assert i > 0;
      ShiftMatch(s, pat, i - 1);
      FindIsFirst(s[1..], pat, i - 1);
    }
  }

  /** Searching for one element: everything before it differs from it. */
  lemma {:induction false} FindOne<T>(s: seq<T>, x: T)
    ensures
      var r := Find(s, [x]);
      if r < 0 then x !in s else s[r] == x && x !in s[..r]
    decreases |s|
  {
    if s != [] {
      assert s[..1] == [s[0]];
      if s[0] != x {
        FindOne(s[1..], x);
        var r := Find(s[1..], [x]);
        if r >= 0 {
          assert s[..r + 1] == [s[0]] + s[1..][..r];
        } else {
          assert s == [s[0]] + s[1..];
        }
      }
    }
  }

  lemma {:induction false} FindOneAt<T>(a: seq<T>, x: T, b: seq<T>)
    requires x !in a
    ensures Find(a + [x] + b, [x]) == |a|
    decreases |a|
  {
    var s := a + [x] + b;
    assert s[..1] == [s[0]];
    if a != [] {
      assert s[1..] == a[1..] + [x] + b;
      FindOneAt(a[1..], x, b);
    }
  }

  // ------------------------------------------------------------------ splitting

  /** `s.split(x)` for a separator of one element. */
  function Split<T(==)>(s: seq<T>, x: T): (r: seq<seq<T>>)
    ensures r != []
    decreases |s|
  {
    var i := Find(s, [x]);
    if i < 0 then [s] else [s[..i]] + Split(s[i + 1..], x)
  }

  function Join<T>(parts: seq<seq<T>>, x: T): (r: seq<T>)
    requires parts != []
    decreases |parts|
  {
    if |parts| == 1 then parts[0] else parts[0] + [x] + Join(parts[1..], x)
  }

  lemma {:induction false} JoinCons<T>(first: seq<T>, rest: seq<seq<T>>, x: T)
    requires rest != []
    ensures Join([first] + rest, x) == first + [x] + Join(rest, x)
  {
    assert ([first] + rest)[1..] == rest;
  }

  lemma {:induction false} CutAt<T>(s: seq<T>, i: nat)
    requires i < |s|
    ensures s[..i] + [s[i]] + s[i + 1..] == s
  {
  }

  lemma {:induction false} PartsAreFree<T>(s: seq<T>, x: T)
    ensures forall part :: part in Split(s, x) ==> x !in part
    decreases |s|
  {
    FindOne(s, x);
    if Find(s, [x]) >= 0 {
      PartsAreFree(s[Find(s, [x]) + 1..], x);
    }
  }

  /** The parts are without the separator, and joining them with it gives the text back. */
  lemma {:induction false} SplitMeans<T>(s: seq<T>, x: T)
    ensures Join(Split(s, x), x) == s
    ensures forall part :: part in Split(s, x) ==> x !in part
    decreases |s|
  {
    PartsAreFree(s, x);
    FindOne(s, x);
    var i := Find(s, [x]);
    if i >= 0 {
      SplitMeans(s[i + 1..], x);
      JoinCons(s[..i], Split(s[i + 1..], x), x);
      CutAt(s, i);
    }
  }

  lemma {:induction false} JoinStep<T>(first: seq<T>, rest: seq<T>, x: T)
    requires x !in first
    ensures Split(first + [x] + rest, x) == [first] + Split(rest, x)
  {
    var s := first + [x] + rest;
    FindOneAt(first, x, rest);
    assert s[..|first|] == first && s[|first| + 1..] == rest;
  }

  lemma {:induction false} SplitOne<T>(s: seq<T>, x: T)
    requires x !in s
    ensures Split(s, x) == [s]
  {
    FindOne(s, x);
  }

  /** They are the only such parts. */
  lemma {:induction false} SplitJoin<T>(parts: seq<seq<T>>, x: T)
    requires parts != [] && forall part :: part in parts ==> x !in part
    ensures Split(Join(parts, x), x) == parts
    decreases |parts|
  {
    assert parts[0] in parts && parts == [parts[0]] + parts[1..];
    if |parts| == 1 {
      SplitOne(parts[0], x);
    } else {
      assert forall part :: part in parts[1..] ==> part in parts;
      SplitJoin(parts[1..], x);
      JoinStep(parts[0], Join(parts[1..], x), x);
    }
  }
}
