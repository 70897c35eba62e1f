/**
 Placeholder substitution `${path.to.key}`: the Python regex form
 (src/link/config/templating.py:19-51) and the hand-written Rust scanner
 (crates/link/src-tauri/src/setup.rs:849-912).
 */
module Templates {
  import opened Common
  import opened Search

  // What a placeholder's path stands for, if anything.
  type Lookup = string -> Option<string>

  function Placeholder(path: string): (r: string) { "${" + path + "}" }

  /** Unknown placeholders are kept as they are. */
  function Emit(lookup: Lookup, path: string): (r: string) {
    var v := lookup(path);
    if v.Some? then v.value else Placeholder(path)
  }

  // ---------------------------------------------------- the regex, in Python

  /** `\$\{([^}]+)\}` matches at the start of `s`, with a body of `n` characters. */
  predicate Matches(s: string, n: nat) {
    && n >= 1 && n + 3 <= |s|
    && s[0] == '$' && s[1] == '{' && s[n + 2] == '}'
    && '}' !in s[2..n + 2]
  }

  function BodyLength(s: string): (n: nat) {
    if |s| < 2 || s[0] != '$' || s[1] != '{' || Find(s[2..], "}") < 0 then 0 else Find(s[2..], "}")
  }

  lemma {:induction false} BodyLengthSound(s: string)
    requires BodyLength(s) >= 1
    ensures Matches(s, BodyLength(s))
  {
    FindOne(s[2..], '}');
    assert s[2..][..BodyLength(s)] == s[2..BodyLength(s) + 2];
  }

  /** There is at most one match at a position, and `BodyLength` finds it. */
  lemma {:induction false} BodyLengthComplete(s: string, n: nat)
    requires Matches(s, n)
    ensures BodyLength(s) == n
  {
    var after := s[2..];
    var r := Find(after, "}");
    FindOne(after, '}');
    assert after[n] == '}';
    assert after[..n] == s[2..n + 2];
    assert forall i :: 0 <= i < n ==> after[i] == after[..n][i];
    assert r >= 0;
    assert forall i :: 0 <= i < r ==> after[i] == after[..r][i];
  }

  /** `_TEMPLATE_RE.sub`: at each position the match if there is one, else the character. */
  function Sub(lookup: Lookup, s: string): (r: string)
    decreases |s|
  {
    if s == "" then ""
    else
      var n := BodyLength(s);
      if n >= 1 then Emit(lookup, s[2..n + 2]) + Sub(lookup, s[n + 3..])
      else [s[0]] + Sub(lookup, s[1..])
  }

  /** The paths of the placeholders of `s`, in order. */
  function Paths(s: string): (r: seq<string>)
    decreases |s|
  {
    if s == "" then []
    else
      var n := BodyLength(s);
      if n >= 1 then [s[2..n + 2]] + Paths(s[n + 3..]) else Paths(s[1..])
  }

  lemma {:induction false} SubLiteral(lookup: Lookup, s: string)
    requires s != "" && BodyLength(s) == 0
    ensures Sub(lookup, s) == [s[0]] + Sub(lookup, s[1..]) && Paths(s) == Paths(s[1..])
  {
  }

  lemma {:induction false} SubMatch(lookup: Lookup, s: string, n: nat)
    requires Matches(s, n)
    ensures Sub(lookup, s) == Emit(lookup, s[2..n + 2]) + Sub(lookup, s[n + 3..])
    ensures Paths(s) == [s[2..n + 2]] + Paths(s[n + 3..])
    ensures s == Placeholder(s[2..n + 2]) + s[n + 3..]
  {
    BodyLengthComplete(s, n);
    MatchIsPlaceholder(s, n);
  }

  lemma {:induction false} MatchIsPlaceholder(s: string, n: nat)
    requires Matches(s, n)
    ensures s == Placeholder(s[2..n + 2]) + s[n + 3..]
  {
    assert s[..2] == "${" && s[n + 2..n + 3] == "}";
    assert s == s[..2] + s[2..n + 2] + s[n + 2..n + 3] + s[n + 3..];
  }

  lemma {:induction false} NotOpenIsLiteral(s: string)
    requires !(|s| >= 2 && s[0] == '$' && s[1] == '{')
    ensures BodyLength(s) == 0
  {
  }

  // ---------------------------------------------------- the scanner, in Rust

  function Scan(lookup: Lookup, s: string): (r: string)
    decreases |s|, 0
  {
    var open := Find(s, "${");
    if open < 0 then s
    else
      var after := s[open + 2..];
      var close := Find(after, "}");
      if close < 0 then s
      else Placed(lookup, s[..open], after[..close], after[close + 1..])
  }

  /** The text before a placeholder, what stands for it, and the rest. */
  function Placed(lookup: Lookup, before: string, path: string, rest: string): (r: string)
    decreases |rest|, 1
  {
    before + Emit(lookup, path) + Scan(lookup, rest)
  }

  method ResolveTemplateString(lookup: Lookup, s: string) returns (result: string)
    ensures result == Scan(lookup, s)
  {
    result := "";
    var rest := s;
    var open := Find(rest, "${");
    while open >= 0
      invariant open == Find(rest, "${")
      invariant result + Scan(lookup, rest) == Scan(lookup, s)
      decreases |rest|
    {
      ghost var before := result;
      result := result + rest[..open];
      var after := rest[open + 2..];
      var close := Find(after, "}");
      if close < 0 {
        Rejoin(before, rest, open);
        return result + rest[open..];
      }
      ScanStep(lookup, rest, open, close);
      var path := after[..close];
      Regroup(before, rest[..open], Emit(lookup, path), Scan(lookup, after[close + 1..]));
      var v := lookup(path);
      if v.Some? {
        result := result + v.value;
      } else {
        result := result + rest[open..open + 2 + close + 1];
      }
      rest := after[close + 1..];
      open := Find(rest, "${");
    }
    result := result + rest;
  }

  // What one turn of the loop writes for a placeholder: its value, or the text as it stands.
  lemma {:induction false} ScanStep(lookup: Lookup, s: string, open: nat, close: nat)
    requires open == Find(s, "${") && close == Find(s[open + 2..], "}")
    ensures
      var path := s[open + 2..][..close];
      var text := if lookup(path).Some? then lookup(path).value else s[open..open + 2 + close + 1];
      text == Emit(lookup, path) && Scan(lookup, s) == s[..open] + text + Scan(lookup, s[open + 2..][close + 1..])
  {
    PlaceholderText(s, open, close);
    ScanUnfolds(lookup, s, open, close);
  }

  lemma {:induction false} ScanUnfolds(lookup: Lookup, s: string, open: nat, close: nat)
    requires open == Find(s, "${") && close == Find(s[open + 2..], "}")
    ensures Scan(lookup, s) == Placed(lookup, s[..open], s[open + 2..][..close], s[open + 2..][close + 1..])
  {
  }

  lemma {:induction false} Rejoin(before: string, s: string, i: nat)
    requires i <= |s|
    ensures before + s[..i] + s[i..] == before + s
  {
    assert before + s[..i] + s[i..] == before + (s[..i] + s[i..]);
    assert s[..i] + s[i..] == s;
  }

  lemma {:induction false} Regroup(a: string, b: string, c: string, d: string)
    ensures a + (b + c + d) == a + b + c + d && a + (b + c) == a + b + c
  {
  }

  // An unknown placeholder is copied from the text.
  lemma {:induction false} PlaceholderText(s: string, open: nat, close: nat)
    requires Find(s, "${") == open && Find(s[open + 2..], "}") == close
    ensures s[open..open + 2 + close + 1] == Placeholder(s[open + 2..][..close])
  {
    FindMatches(s, "${");
    FindOne(s[open + 2..], '}');
    var path := s[open + 2..][..close];
    assert s[open..open + 2] == "${" && s[open + 2..][close] == '}';
    assert s[open..open + 2 + close + 1] == s[open..open + 2] + path + [s[open + 2..][close]];
  }

  // ------------------------------------------------------ scanner equals regex

  predicate OpensAt(s: string, i: nat) { i + 1 < |s| && s[i] == '$' && s[i + 1] == '{' }

  lemma {:induction false} OpenIsMatch(s: string, i: nat)
    ensures MatchAt(s, i, "${") <==> OpensAt(s, i)
  {
    if i + 2 <= |s| {
      assert s[i..i + 2] == [s[i], s[i + 1]];
    }
  }

  lemma {:induction false} LiteralStep(c: char, a: string, b: string)
    ensures [c] + (a + b) == [c] + a + b
  {
  }

  lemma {:induction false} LiteralPrefix(lookup: Lookup, s: string, k: nat)
    requires k <= |s| && forall i: nat :: i < k ==> !OpensAt(s, i)
    ensures Sub(lookup, s) == s[..k] + Sub(lookup, s[k..])
    decreases k
  {
    if k == 0 {
      assert s[0..] == s && s[..0] == "";
    } else {
      assert !OpensAt(s, 0);
      NotOpenIsLiteral(s);
      SubLiteral(lookup, s);
      forall i: nat | i < k - 1 ensures !OpensAt(s[1..], i) {
        assert !OpensAt(s, i + 1);
      }
      LiteralPrefix(lookup, s[1..], k - 1);
      LiteralStep(s[0], s[1..][..k - 1], Sub(lookup, s[k..]));
      assert s[1..][k - 1..] == s[k..];
      assert [s[0]] + s[1..][..k - 1] == s[..k];
    }
  }

  lemma {:induction false} NoBraceIsLiteral(s: string)
    requires '}' !in s
    ensures BodyLength(s) == 0
  {
    if |s| >= 2 {
      FindOne(s[2..], '}');
      assert forall i :: 0 <= i < |s[2..]| ==> s[2..][i] in s;
    }
  }

  /** Without a closing brace nothing is a placeholder. */
  lemma {:induction false} NoBraceNoChange(lookup: Lookup, s: string)
    requires '}' !in s
    ensures Sub(lookup, s) == s && Paths(s) == []
    decreases |s|
  {
    if s != "" {
      NoBraceIsLiteral(s);
      SubLiteral(lookup, s);
      NoBraceNoChange(lookup, s[1..]);
    }
  }

  lemma {:induction false} ClosedAtOnceIsLiteral(s: string)
    requires |s| >= 3 && s[2] == '}'
    ensures BodyLength(s) == 0
  {
    assert s[2..][..1] == "}";
  }

  lemma {:induction false} EmptyBodyIsLiteral(lookup: Lookup, tail: string)
    ensures Sub(lookup, "${}" + tail) == "${}" + Sub(lookup, tail)
  {
    var s := "${}" + tail;
    ClosedAtOnceIsLiteral(s);
    var s1, s2 := s[1..], s[1..][1..];
    SubLiteral(lookup, s);
    NotOpenIsLiteral(s1);
    SubLiteral(lookup, s1);
    NotOpenIsLiteral(s2);
    SubLiteral(lookup, s2);
    assert s2[1..] == tail;
    assert "${}" + Sub(lookup, tail) == ['$'] + (['{'] + (['}'] + Sub(lookup, tail)));
  }

  // Where the scanner stops: at the first opening, whatever follows it.
  lemma {:induction false} ScanStop(lookup: Lookup, s: string)
    ensures
      var open := Find(s, "${");
      var k := if open < 0 then |s| else open;
      && Sub(lookup, s) == s[..k] + Sub(lookup, s[k..])
      && (open >= 0 ==> s[open] == '$' && s[open + 1] == '{')
  {
    var open := Find(s, "${");
    var k := if open < 0 then |s| else open;
    forall i: nat | i < k ensures !OpensAt(s, i) {
      OpenIsMatch(s, i);
      if MatchAt(s, i, "${") {
        FindIsFirst(s, "${", i);
      }
    }
    LiteralPrefix(lookup, s, k);
    if open >= 0 {
      FindMatches(s, "${");
      OpenIsMatch(s, open);
    }
  }

  // What the scanner does with the text from an opening `${` on.
  function ScanOpening(lookup: Lookup, t: string): (r: string)
    requires |t| >= 2
  {
    var after := t[2..];
    var close := Find(after, "}");
    if close < 0 then t else Emit(lookup, after[..close]) + Scan(lookup, after[close + 1..])
  }

  lemma {:induction false} ClosedOpening(lookup: Lookup, t: string, close: nat)
    requires Emit(lookup, "") == "${}" && |t| >= 2 && t[0] == '$' && t[1] == '{'
    requires close < |t[2..]| && t[2..][close] == '}' && '}' !in t[2..][..close]
    ensures Sub(lookup, t) == Emit(lookup, t[2..][..close]) + Sub(lookup, t[2..][close + 1..])
  {
    var after := t[2..];
    if close == 0 {
      assert t == "${}" + after[1..];
      EmptyBodyIsLiteral(lookup, after[1..]);
      assert after[..0] == "";
    } else {
      assert t[2..close + 2] == after[..close] && t[close + 3..] == after[close + 1..];
      assert t[close + 2] == after[close];
      SubMatch(lookup, t, close);
    }
  }

  lemma {:induction false} UnclosedOpening(lookup: Lookup, t: string)
    requires |t| >= 2 && t[0] == '$' && t[1] == '{' && '}' !in t[2..]
    ensures Sub(lookup, t) == t
  {
    assert t == "${" + t[2..];
    NoBraceNoChange(lookup, t);
  }

  lemma {:induction false} ScanSplits(lookup: Lookup, s: string)
    ensures
      var open := Find(s, "${");
      Scan(lookup, s) == if open < 0 then s else s[..open] + ScanOpening(lookup, s[open..])
  {
    var open := Find(s, "${");
    if open >= 0 {
      assert s[open..][2..] == s[open + 2..];
      ScanAtOpening(lookup, s, open, s[open..]);
    }
  }

  lemma {:induction false} ScanAtOpening(lookup: Lookup, s: string, open: nat, t: string)
    requires Find(s, "${") == open && t == s[open..] && t[2..] == s[open + 2..]
    ensures Scan(lookup, s) == s[..open] + ScanOpening(lookup, t)
  {
    var after := t[2..];
    var close := Find(after, "}");
    if close < 0 {
      assert s[..open] + t == s;
    } else {
      ScanUnfolds(lookup, s, open, close);
      PlacedIs(lookup, s[..open], after[..close], after[close + 1..]);
    }
  }

  lemma {:induction false} PlacedIs(lookup: Lookup, before: string, path: string, rest: string)
    ensures Placed(lookup, before, path, rest) == before + (Emit(lookup, path) + Scan(lookup, rest))
  {
    Associate(before, Emit(lookup, path), Scan(lookup, rest));
  }

  lemma {:induction false} Associate(a: string, b: string, c: string)
    ensures a + b + c == a + (b + c)
  {
  }

  /** The scanner computes the regex substitution, provided its lookup leaves an empty
      path alone: the regex never looks one up. */
  lemma {:induction false} ScanIsSub(lookup: Lookup, s: string)
    requires Emit(lookup, "") == "${}"
    ensures Scan(lookup, s) == Sub(lookup, s)
    decreases |s|, 1
  {
    var open := Find(s, "${");
    ScanStop(lookup, s);
    ScanSplits(lookup, s);
    if open < 0 {
      assert s[|s|..] == "" && s[..|s|] + "" == s;
    } else {
      OpeningIsSub(lookup, s[open..]);
    }
  }

  lemma {:induction false} OpeningIsSub(lookup: Lookup, t: string)
    requires Emit(lookup, "") == "${}" && |t| >= 2 && t[0] == '$' && t[1] == '{'
    ensures ScanOpening(lookup, t) == Sub(lookup, t)
    decreases |t|, 0
  {
    var after := t[2..];
    var close := Find(after, "}");
    FindOne(after, '}');
    if close < 0 {
      UnclosedOpening(lookup, t);
    } else {
      ClosedOpening(lookup, t, close);
      ScanIsSub(lookup, after[close + 1..]);
    }
  }

  lemma {:induction false} SubDependsOnPaths(a: Lookup, b: Lookup, s: string)
    requires forall p :: p in Paths(s) ==> Emit(a, p) == Emit(b, p)
    ensures Sub(a, s) == Sub(b, s)
    decreases |s|
  {
    if s != "" {
      var n := BodyLength(s);
      if n >= 1 {
        assert s[2..n + 2] in Paths(s);
        SubDependsOnPaths(a, b, s[n + 3..]);
      } else {
        SubDependsOnPaths(a, b, s[1..]);
      }
    }
  }

  // ---------------------------------------------------------- dotted lookups

  function Walk(node: Json, parts: seq<string>): (r: Option<Json>)
    decreases |parts|
  {
    if parts == [] then Some(node)
    else if !node.Obj? || Field(node.fields, parts[0]).None? then None
    else Walk(Field(node.fields, parts[0]).value, parts[1..])
  }

  /** Both languages walk the parts with a loop that moves `node` down. */
  method WalkContext(context: Json, path: string) returns (found: Option<Json>)
    ensures found == Walk(context, Split(path, '.'))
  {
    var parts := Split(path, '.');
    var node := context;
    var i := 0;
    assert parts[0..] == parts;
    while i < |parts|
      invariant 0 <= i <= |parts|
      invariant Walk(node, parts[i..]) == Walk(context, parts)
    {
      assert parts[i..][0] == parts[i] && parts[i..][1..] == parts[i + 1..];
      if !node.Obj? || Field(node.fields, parts[i]).None? {
        return None;
      }
      node := Field(node.fields, parts[i]).value;
      i := i + 1;
    }
    return Some(node);
  }

  /** From node to node down the objects, one part at each step. */
  predicate Chain(nodes: seq<Json>, parts: seq<string>) {
    |nodes| == |parts| + 1
    && forall i :: 0 <= i < |parts| ==> nodes[i].Obj? && Field(nodes[i].fields, parts[i]) == Some(nodes[i + 1])
  }

  /** A walk finds `v` if and only if a chain of objects, one per part, leads to it. */
  lemma {:induction false} WalkIff(context: Json, parts: seq<string>, v: Json)
    ensures Walk(context, parts) == Some(v) <==>
            exists nodes :: Chain(nodes, parts) && nodes[0] == context && nodes[|parts|] == v
  {
    if Walk(context, parts) == Some(v) {
      var nodes := ChainOf(context, parts);
      assert Chain(nodes, parts) && nodes[0] == context && nodes[|parts|] == v;
    }
    if nodes :| Chain(nodes, parts) && nodes[0] == context && nodes[|parts|] == v {
      WalkAlong(nodes, parts);
    }
  }

  lemma {:induction false} ChainOf(context: Json, parts: seq<string>) returns (nodes: seq<Json>)
    requires Walk(context, parts).Some?
    ensures Chain(nodes, parts) && nodes[0] == context && Some(nodes[|parts|]) == Walk(context, parts)
    decreases |parts|
  {
    if parts == [] {
      nodes := [context];
    } else {
      var rest := ChainOf(Field(context.fields, parts[0]).value, parts[1..]);
      nodes := [context] + rest;
      forall i | 0 <= i < |parts| ensures nodes[i].Obj? && Field(nodes[i].fields, parts[i]) == Some(nodes[i + 1]) {
        assert i > 0 ==> parts[i] == parts[1..][i - 1] && nodes[i] == rest[i - 1] && nodes[i + 1] == rest[i];
      }
    }
  }

  lemma {:induction false} WalkAlong(nodes: seq<Json>, parts: seq<string>)
    requires Chain(nodes, parts)
    ensures Walk(nodes[0], parts) == Some(nodes[|parts|])
    decreases |parts|
  {
    if parts != [] {
      assert Field(nodes[0].fields, parts[0]) == Some(nodes[1]);
      forall i | 0 <= i < |parts[1..]|
        ensures nodes[1..][i].Obj? && Field(nodes[1..][i].fields, parts[1..][i]) == Some(nodes[1..][i + 1]) {
        assert nodes[1..][i] == nodes[i + 1] && parts[1..][i] == parts[i + 1];
      }
      WalkAlong(nodes[1..], parts[1..]);
    }
  }

  /** Python: `str(node)` of whatever was found. */
  function PythonLookup(context: Json, text: Json -> string): (r: Lookup) {
    path =>
      var v := Walk(context, Split(path, '.'));
      if v.None? then None else Some(if v.value.Str? then v.value.s else text(v.value))
  }

  /** Rust: a null keeps the placeholder, other values print as JSON. */
  function RustLookup(context: Json, text: Json -> string): (r: Lookup) {
    path =>
      var v := Walk(context, Split(path, '.'));
      if v.None? || v.value.Null? then None else Some(if v.value.Str? then v.value.s else text(v.value))
  }

  predicate StringOrAbsent(context: Json, path: string) {
    var v := Walk(context, Split(path, '.'));
    v.None? || v.value.Str?
  }

  function EmptyKey(context: Json): (r: Option<Json>) {
    if context.Obj? then Field(context.fields, "") else None
  }

  predicate NoEmptyKey(context: Json) { EmptyKey(context).None? }

  lemma {:induction false} WalkEmptyPath(context: Json)
    ensures Walk(context, Split("", '.')) == EmptyKey(context)
  {
    assert Split("", '.') == [""];
    if context.Obj? && Field(context.fields, "").Some? {
      assert [""][1..] == [];
      assert Walk(context, [""]) == Walk(Field(context.fields, "").value, []);
    }
  }

  /** The two implementations agree on every string whose placeholders stand for strings
      or for nothing, when the context has no empty key. */
  lemma {:induction false} ScannerAgreesWithRegex(context: Json, py: Json -> string, rs: Json -> string, s: string)
    requires NoEmptyKey(context)
    requires forall p :: p in Paths(s) ==> StringOrAbsent(context, p)
    ensures Scan(RustLookup(context, rs), s) == Sub(PythonLookup(context, py), s)
  {
    var rust, python := RustLookup(context, rs), PythonLookup(context, py);
    WalkEmptyPath(context);
    assert Placeholder("") == "${}";
    ScanIsSub(rust, s);
    forall p | p in Paths(s) ensures Emit(rust, p) == Emit(python, p) {
      assert StringOrAbsent(context, p);
    }
    SubDependsOnPaths(rust, python, s);
  }

  lemma {:induction false} ScanPlaceholder(lookup: Lookup, path: string)
    requires '}' !in path
    ensures Scan(lookup, Placeholder(path)) == Emit(lookup, path)
  {
    var s := Placeholder(path);
    assert s[0..2] == "${";
    FindIsFirst(s, "${", 0);
    var after := s[2..];
    assert after == path + "}";
    FindOneAt(path, '}', "");
    assert path + ['}'] + "" == after;
    var close := |path|;
    assert after[..close] == path && after[close + 1..] == "" && s[..0] == "";
    assert Scan(lookup, "") == "";
  }

  /** The empty key is a real difference: on `${}` the two agree iff the context has no
      empty key, or holds null there, or text that reads `${}` itself. */
  lemma {:induction false} EmptyPlaceholderAgreesIff(context: Json, py: Json -> string, rs: Json -> string)
    ensures
      Scan(RustLookup(context, rs), "${}") == Sub(PythonLookup(context, py), "${}") <==> EmptyPathAgrees(context, rs)
  {
    SubOfEmptyPlaceholder(PythonLookup(context, py));
    ScanOfEmptyPlaceholder(RustLookup(context, rs));
    EmptyEmitIff(context, rs);
  }

  lemma {:induction false} EmptyEmitIff(context: Json, rs: Json -> string)
    ensures Emit(RustLookup(context, rs), "") == "${}" <==> EmptyPathAgrees(context, rs)
  {
    WalkEmptyPath(context);
    assert Placeholder("") == "${}";
  }

  lemma {:induction false} SubOfEmptyPlaceholder(lookup: Lookup)
    ensures Sub(lookup, "${}") == "${}"
  {
    assert "${}" + "" == "${}";
    EmptyBodyIsLiteral(lookup, "");
  }

  lemma {:induction false} ScanOfEmptyPlaceholder(lookup: Lookup)
    ensures Scan(lookup, "${}") == Emit(lookup, "")
  {
    assert Placeholder("") == "${}";
    ScanPlaceholder(lookup, "");
  }

  /** So is a null: Python substitutes its text, Rust keeps the placeholder. */
  lemma {:induction false} NullLeafDiffers(context: Json, path: string, py: Json -> string, rs: Json -> string)
    requires path != "" && '}' !in path && Walk(context, Split(path, '.')) == Some(Null)
    ensures Scan(RustLookup(context, rs), Placeholder(path)) == Placeholder(path)
    ensures Sub(PythonLookup(context, py), Placeholder(path)) == py(Null)
  {
    ScanPlaceholder(RustLookup(context, rs), path);
    KnownPrefix(PythonLookup(context, py), path, "");
    assert Placeholder(path) + "" == Placeholder(path);
    assert Sub(PythonLookup(context, py), "") == "";
    assert py(Null) + "" == py(Null);
  }

  /** Both languages put the same text for this path: nothing is there, or a string, or a null
      whose Python text is the placeholder itself, or a value both print alike. */
  predicate LeafAgrees(context: Json, py: Json -> string, rs: Json -> string, path: string) {
    var v := Walk(context, Split(path, '.'));
    v.None? || v.value.Str? || if v.value.Null? then py(Null) == Placeholder(path) else py(v.value) == rs(v.value)
  }

  /** The empty path, which only Rust looks up. */
  predicate EmptyPathAgrees(context: Json, rs: Json -> string) {
    NoEmptyKey(context)
    || var v := EmptyKey(context).value; v.Null? || (if v.Str? then v.s else rs(v)) == "${}"
  }

  ghost predicate ContextAgrees(context: Json, py: Json -> string, rs: Json -> string) {
    EmptyPathAgrees(context, rs) && forall p :: p != "" && '}' !in p ==> LeafAgrees(context, py, rs, p)
  }

  lemma {:induction false} PathsAreProper(s: string, p: string)
    requires p in Paths(s)
    ensures p != "" && '}' !in p
    decreases |s|
  {
    if BodyLength(s) >= 1 {
      BodyLengthSound(s);
      if p != s[2..BodyLength(s) + 2] {
        PathsAreProper(s[BodyLength(s) + 3..], p);
      }
    } else {
      PathsAreProper(s[1..], p);
    }
  }

  lemma {:induction false} EmitsAgreeIff(context: Json, py: Json -> string, rs: Json -> string, p: string)
    ensures Emit(RustLookup(context, rs), p) == Emit(PythonLookup(context, py), p) <==> LeafAgrees(context, py, rs, p)
  {
  }

  lemma {:induction false} PlaceholderAgreesIff(context: Json, py: Json -> string, rs: Json -> string, p: string)
    requires p != "" && '}' !in p
    ensures Scan(RustLookup(context, rs), Placeholder(p)) == Sub(PythonLookup(context, py), Placeholder(p))
            <==> LeafAgrees(context, py, rs, p)
  {
    ScanPlaceholder(RustLookup(context, rs), p);
    KnownPrefix(PythonLookup(context, py), p, "");
    assert Placeholder(p) + "" == Placeholder(p) && Sub(PythonLookup(context, py), "") == "";
    assert Emit(PythonLookup(context, py), p) + "" == Emit(PythonLookup(context, py), p);
    EmitsAgreeIff(context, py, rs, p);
  }

  /** What one placeholder comes to in both languages, told from the context: a chain of objects down its dotted
      names to a string puts that string in its place, and without any chain it stays. */
  lemma {:induction false} PlaceholderMeans(context: Json, names: seq<string>, py: Json -> string, rs: Json -> string)
    requires names != [] && names != [""] && forall name :: name in names ==> '.' !in name && '}' !in name
    ensures
      var text := Placeholder(Join(names, '.'));
      var rust, python := Scan(RustLookup(context, rs), text), Sub(PythonLookup(context, py), text);
      && (forall nodes: seq<Json> :: Chain(nodes, names) && nodes[0] == context && nodes[|names|].Str? ==>
            rust == python == nodes[|names|].s)
      && ((forall nodes: seq<Json> :: Chain(nodes, names) ==> nodes[0] != context) ==> rust == python == text)
  {
    var path := Join(names, '.');
    JoinedNames(names);
    SplitJoin(names, '.');
    ScanPlaceholder(RustLookup(context, rs), path);
    KnownPrefix(PythonLookup(context, py), path, "");
    assert Placeholder(path) + "" == Placeholder(path) && Sub(PythonLookup(context, py), "") == "";
    assert Emit(PythonLookup(context, py), path) + "" == Emit(PythonLookup(context, py), path);
    forall nodes: seq<Json> | Chain(nodes, names) && nodes[0] == context && nodes[|names|].Str?
      ensures Walk(context, names) == Some(nodes[|names|]) {
      WalkAlong(nodes, names);
    }
    if Walk(context, names).Some? {
      var nodes := ChainOf(context, names);
      assert Chain(nodes, names) && nodes[0] == context;
    }
  }

  lemma {:induction false} JoinedNames(names: seq<string>)
    requires names != [] && forall name :: name in names ==> '}' !in name
    ensures '}' !in Join(names, '.') && (Join(names, '.') == "" <==> names == [""])
    decreases |names|
  {
    assert names[0] in names;
    if |names| > 1 {
      assert forall name :: name in names[1..] ==> name in names;
      JoinedNames(names[1..]);
    } else {
      assert names == [names[0]];
    }
  }

  lemma {:induction false} AgreeingContextAgrees(context: Json, py: Json -> string, rs: Json -> string, s: string)
    requires ContextAgrees(context, py, rs)
    ensures Scan(RustLookup(context, rs), s) == Sub(PythonLookup(context, py), s)
  {
    var rust, python := RustLookup(context, rs), PythonLookup(context, py);
    WalkEmptyPath(context);
    assert Placeholder("") == "${}";
    ScanIsSub(rust, s);
    forall p | p in Paths(s) ensures Emit(rust, p) == Emit(python, p) {
      PathsAreProper(s, p);
      EmitsAgreeIff(context, py, rs, p);
    }
    SubDependsOnPaths(rust, python, s);
  }

  /** A scanner and a substitution that give the same text for every string. */
  ghost predicate SameOnStrings(rust: Lookup, python: Lookup) {
    forall s :: Scan(rust, s) == Sub(python, s)
  }

  lemma {:induction false} AgreementNeedsContext(context: Json, py: Json -> string, rs: Json -> string)
    requires SameOnStrings(RustLookup(context, rs), PythonLookup(context, py))
    ensures ContextAgrees(context, py, rs)
  {
    var rust, python := RustLookup(context, rs), PythonLookup(context, py);
    assert Scan(rust, "${}") == Sub(python, "${}");
    EmptyPlaceholderAgreesIff(context, py, rs);
    forall p | p != "" && '}' !in p ensures LeafAgrees(context, py, rs, p) {
      assert Scan(rust, Placeholder(p)) == Sub(python, Placeholder(p));
      PlaceholderAgreesIff(context, py, rs, p);
    }
  }

  /** The two implementations agree on every string if and only if the context agrees: on the
      empty path, and at every path a placeholder can name. */
  lemma {:induction false} AgreementIff(context: Json, py: Json -> string, rs: Json -> string)
    ensures SameOnStrings(RustLookup(context, rs), PythonLookup(context, py)) <==> ContextAgrees(context, py, rs)
  {
    var rust, python := RustLookup(context, rs), PythonLookup(context, py);
    if SameOnStrings(rust, python) {
      AgreementNeedsContext(context, py, rs);
    }
    if ContextAgrees(context, py, rs) {
      forall s ensures Scan(rust, s) == Sub(python, s) {
        AgreeingContextAgrees(context, py, rs, s);
      }
    }
  }

  // ------------------------------------------------------------- second pass

  /** Every `${` is closed at once, within the string, so that it opens nothing. */
  predicate OpensNothing(v: string) {
    forall i: nat :: i < |v| && OpensAt(v, i) ==> i + 2 < |v| && v[i + 2] == '}'
  }

  /** A value that opens no placeholder, on its own, after a `$`, or before a `{`. */
  predicate Inert(v: string) { v != "" && v[|v| - 1] != '$' && OpensNothing("$" + v) }

  /** In particular: text without the two characters that open one. */
  lemma {:induction false} PlainIsInert(v: string)
    requires v != "" && '$' !in v && '{' !in v
    ensures Inert(v)
  {
    forall i: nat ensures !OpensAt("$" + v, i) {
      if i + 1 < |"$" + v| {
        assert ("$" + v)[i + 1] == v[i] && v[i] in v;
      }
    }
  }

  lemma {:induction false} InertOpensNothing(v: string)
    requires OpensNothing("$" + v)
    ensures OpensNothing(v)
  {
    forall i: nat | OpensAt(v, i) ensures i + 2 < |v| && v[i + 2] == '}' {
      assert OpensAt("$" + v, i + 1);
    }
  }

  lemma {:induction false} InertPrefix(lookup: Lookup, v: string, t: string)
    requires OpensNothing(v) && (v == "" || v[|v| - 1] != '$')
    ensures Sub(lookup, v + t) == v + Sub(lookup, t)
    decreases |v|
  {
    if v == "" {
      assert v + t == t;
    } else {
      assert (v + t)[1..] == v[1..] + t;
      InertStartsLiteral(v, t);
      SubLiteral(lookup, v + t);
      forall i: nat | OpensAt(v[1..], i) ensures i + 2 < |v[1..]| && v[1..][i + 2] == '}' {
        assert OpensAt(v, i + 1);
      }
      InertPrefix(lookup, v[1..], t);
      LiteralStep(v[0], v[1..], Sub(lookup, t));
      assert [v[0]] + v[1..] == v;
    }
  }

  lemma {:induction false} InertStartsLiteral(v: string, t: string)
    requires v != "" && OpensNothing(v) && v[|v| - 1] != '$'
    ensures BodyLength(v + t) == 0
  {
    if OpensAt(v, 0) {
      assert (v + t)[2] == v[2] == '}';
      ClosedAtOnceIsLiteral(v + t);
    } else {
      NotOpenIsLiteral(v + t);
    }
  }

  lemma {:induction false} KnownPrefix(lookup: Lookup, path: string, t: string)
    requires path != "" && '}' !in path
    ensures Sub(lookup, Placeholder(path) + t) == Emit(lookup, path) + Sub(lookup, t)
  {
    PlaceholderParts(path, t);
    SubMatch(lookup, Placeholder(path) + t, |path|);
  }

  lemma {:induction false} PlaceholderParts(path: string, t: string)
    ensures var s := Placeholder(path) + t;
            |s| >= |path| + 3 && s[0] == '$' && s[1] == '{' && s[2..|path| + 2] == path && s[|path| + 2] == '}'
            && s[|path| + 3..] == t
  {
    var s := Placeholder(path) + t;
    assert s == "${" + (path + ("}" + t));
  }

  /** Substituting twice changes nothing more, when substituted values are inert. */
  lemma {:induction false} SecondPassIsIdentity(lookup: Lookup, s: string)
    requires forall p :: p in Paths(s) && lookup(p).Some? ==> Inert(lookup(p).value)
    ensures Sub(lookup, Sub(lookup, s)) == Sub(lookup, s)
    decreases |s|
  {
    if s != "" {
      var n := BodyLength(s);
      if n >= 1 {
        var path := s[2..n + 2];
        var rest := Sub(lookup, s[n + 3..]);
        BodyLengthSound(s);
        SubMatch(lookup, s, n);
        SecondPassIsIdentity(lookup, s[n + 3..]);
        if lookup(path).Some? {
          assert Inert(lookup(path).value);
          InertOpensNothing(lookup(path).value);
          InertPrefix(lookup, lookup(path).value, rest);
        } else {
          KnownPrefix(lookup, path, rest);
        }
      } else {
        var t := [s[0]] + Sub(lookup, s[1..]);
        SubLiteral(lookup, s);
        SecondPassIsIdentity(lookup, s[1..]);
        NoNewPlaceholder(lookup, s);
        SubLiteral(lookup, t);
        assert t[1..] == Sub(lookup, s[1..]);
      }
    }
  }

  /** A literal character does not open a placeholder with what substitution puts after it. */
  lemma {:induction false} NoNewPlaceholder(lookup: Lookup, s: string)
    requires s != "" && BodyLength(s) == 0
    requires forall p :: p in Paths(s) && lookup(p).Some? ==> Inert(lookup(p).value)
    ensures BodyLength([s[0]] + Sub(lookup, s[1..])) == 0
  {
    var out := Sub(lookup, s[1..]);
    var t := [s[0]] + out;
    SubLiteral(lookup, s);
    if |s| >= 3 && s[1] == '{' && s[2] == '}' {
      EmptyBodyStays(lookup, s);
      ClosedAtOnceIsLiteral(t);
    } else if s[0] == '$' && out != "" && out[0] == '{' {
      if |out| >= 2 && out[1] == '}' {
        ClosedAtOnceIsLiteral(t);
      } else {
        FirstCharacter(lookup, s[1..]);
        OpenStays(lookup, s);
      }
    } else {
      NotOpenIsLiteral(t);
    }
  }

  lemma {:induction false} EmptyBodyStays(lookup: Lookup, s: string)
    requires |s| >= 3 && s[1] == '{' && s[2] == '}'
    ensures |Sub(lookup, s[1..])| >= 2 && Sub(lookup, s[1..])[1] == '}'
  {
    NotOpenIsLiteral(s[1..]);
    SubLiteral(lookup, s[1..]);
    assert s[1..][1..] == s[2..];
    NotOpenIsLiteral(s[2..]);
    SubLiteral(lookup, s[2..]);
  }

  // A `${` that nothing closes is followed by no placeholder.
  lemma {:induction false} OpenStays(lookup: Lookup, s: string)
    requires |s| >= 2 && s[0] == '$' && s[1] == '{' && BodyLength(s) == 0 && (|s| == 2 || s[2] != '}')
    ensures BodyLength([s[0]] + Sub(lookup, s[1..])) == 0
  {
    FindOne(s[2..], '}');
    NotOpenIsLiteral(s[1..]);
    SubLiteral(lookup, s[1..]);
    assert s[1..][1..] == s[2..];
    NoBraceNoChange(lookup, s[2..]);
    assert [s[0]] + ([s[1]] + s[2..]) == s;
  }

  lemma {:induction false} FirstCharacter(lookup: Lookup, s: string)
    requires Sub(lookup, s) != "" && Sub(lookup, s)[0] == '{'
    requires |Sub(lookup, s)| == 1 || Sub(lookup, s)[1] != '}'
    requires forall p :: p in Paths(s) && lookup(p).Some? ==> Inert(lookup(p).value)
    ensures s != "" && s[0] == '{'
  {
    if BodyLength(s) >= 1 {
      var path := s[2..BodyLength(s) + 2];
      BodyLengthSound(s);
      SubMatch(lookup, s, BodyLength(s));
      assert path in Paths(s);
      InertEmission(lookup, path);
      SameStart(Emit(lookup, path), Sub(lookup, s[BodyLength(s) + 3..]));
    } else {
      SubLiteral(lookup, s);
    }
  }

  lemma {:induction false} SameStart(a: string, b: string)
    requires a != ""
    ensures (a + b)[0] == a[0] && (|a| >= 2 ==> (a + b)[1] == a[1])
  {
  }

  lemma {:induction false} InertEmission(lookup: Lookup, path: string)
    requires lookup(path).Some? ==> Inert(lookup(path).value)
    ensures var e := Emit(lookup, path); e != "" && (e[0] == '{' ==> |e| >= 2 && e[1] == '}')
  {
    var e := Emit(lookup, path);
    if lookup(path).Some? && e[0] == '{' {
      assert OpensAt("$" + e, 0);
    }
  }

  // -------------------------------------------- when the second pass is harmless

  /** A text with a `${` that is closed later, and not at once, has a placeholder. */
  lemma {:induction false} OpenedAndClosed(z: string, i: nat)
    requires OpensAt(z, i) && i + 2 < |z| && z[i + 2] != '}' && '}' in z[i + 2..]
    ensures Paths(z) != []
    decreases |z|
  {
    if BodyLength(z) == 0 {
      if i == 0 {
        FindOne(z[2..], '}');
      }
      assert z[1..][i - 1 + 2..] == z[i + 2..];
      OpenedAndClosed(z[1..], i - 1);
    }
  }

  /** Substituting an `x` for the first placeholder is a change. */
  lemma {:induction false} FirstPathChanges(lookup: Lookup, z: string)
    requires Paths(z) != [] && lookup(Paths(z)[0]) == Some("x")
    ensures Sub(lookup, z) != z
    decreases |z|
  {
    if BodyLength(z) >= 1 {
      assert Sub(lookup, z)[0] == 'x';
    } else {
      SubLiteral(lookup, z);
      FirstPathChanges(lookup, z[1..]);
      assert z == [z[0]] + z[1..];
      assert Sub(lookup, z)[1..] == Sub(lookup, z[1..]);
    }
  }

  /** Known values are taken from these. */
  ghost predicate ValuesAmong(lookup: Lookup, values: set<string>) {
    forall p :: lookup(p).Some? ==> lookup(p).value in values
  }

  // What to append so that an unsafe value, after a `$`, completes a placeholder.
  function Completion(v: string): (t: string) { if v == "" || v[|v| - 1] == '$' then "{k}" else "k}" }

  lemma {:induction false} UnsafeCompletes(v: string)
    requires !Inert(v)
    ensures Paths("$" + v + Completion(v)) != []
  {
    var t := Completion(v);
    var z := "$" + v + t;
    if v == "" || v[|v| - 1] == '$' {
      assert z[|v|] == '$' && z[|v| + 1] == '{' && z[|v| + 2] == 'k' && z[|v| + 3] == '}';
      assert z[|v| + 2..][1] == '}';
      OpenedAndClosed(z, |v|);
    } else {
      OpenCompletes("$" + v);
    }
  }

  lemma {:induction false} OpenCompletes(y: string)
    requires !OpensNothing(y)
    ensures Paths(y + "k}") != []
  {
    var i: nat :| i < |y| && OpensAt(y, i) && !(i + 2 < |y| && y[i + 2] == '}');
    var z := y + "k}";
    assert z[|y|] == 'k' && z[|y| + 1] == '}' && z[i + 2..][|y| + 1 - (i + 2)] == '}';
    OpenedAndClosed(z, i);
  }

  lemma {:induction false} SubAround(lookup: Lookup, p: string, t: string)
    requires p != "" && '}' !in p && lookup(p).Some? && '$' !in t
    ensures Sub(lookup, "$" + Placeholder(p) + t) == "$" + lookup(p).value + t
  {
    var rest := Placeholder(p) + t;
    var s := "$" + Placeholder(p) + t;
    assert s == "$" + rest && s[1] == '$' && s[1..] == rest;
    NotOpenIsLiteral(s);
    SubLiteral(lookup, s);
    KnownPrefix(lookup, p, t);
    InertSelf(lookup, t);
    LiteralStep('$', lookup(p).value, t);
  }

  lemma {:induction false} InertSelf(lookup: Lookup, t: string)
    requires '$' !in t
    ensures Sub(lookup, t) == t
  {
    forall i: nat ensures !OpensAt(t, i) {
    }
    if t != "" {
      assert t[|t| - 1] in t;
    }
    InertPrefix(lookup, t, "");
    assert t + "" == t && Sub(lookup, "") == "";
  }

  /** An unsafe value breaks the second pass, together with one harmless value. */
  lemma {:induction false} UnsafeValueBreaks(v: string) returns (lookup: Lookup, s: string)
    requires !Inert(v)
    ensures ValuesAmong(lookup, {v, "x"}) && Sub(lookup, Sub(lookup, s)) != Sub(lookup, s)
  {
    var t := Completion(v);
    var z := "$" + v + t;
    UnsafeCompletes(v);
    var b := Paths(z)[0];
    var p := if b == "p" then "q" else "p";
    lookup := path => if path == p then Some(v) else if path == b then Some("x") else None;
    s := "$" + Placeholder(p) + t;
    SubAround(lookup, p, t);
    FirstPathChanges(lookup, z);
  }

  /** The exact condition on a value: with it among the known values, next to a harmless one, the
      second pass changes nothing in any text under any names if and only if the value is inert. */
  lemma {:induction false} SecondPassIff(v: string)
    ensures Inert(v) <==>
            forall lookup: Lookup, s: string ::
              ValuesAmong(lookup, {v, "x"}) ==> Sub(lookup, Sub(lookup, s)) == Sub(lookup, s)
  {
    if Inert(v) {
      PlainIsInert("x");
      forall lookup: Lookup, s: string | ValuesAmong(lookup, {v, "x"})
        ensures Sub(lookup, Sub(lookup, s)) == Sub(lookup, s)
      {
        SecondPassIsIdentity(lookup, s);
      }
    } else {
      var lookup, s := UnsafeValueBreaks(v);
    }
  }

  function ExampleLookup(path: string): (r: Option<string>) {
    if path == "k" then Some("") else if path == "a" then Some("x") else None
  }

  /** The non-empty condition is needed: an empty value can bring `$` and `{` together. */
  lemma EmptyValueBreaksSecondPass()
    ensures Sub(ExampleLookup, "$" + Placeholder("k") + "{a}") == Placeholder("a")
    ensures Sub(ExampleLookup, Placeholder("a")) == "x"
  {
    SubAround(ExampleLookup, "k", "{a}");
    assert "$" + "" + "{a}" == Placeholder("a");
    KnownPrefix(ExampleLookup, "a", "");
    assert Placeholder("a") + "" == Placeholder("a") && Sub(ExampleLookup, "") == "";
  }

  // ------------------------------------------------------------------- trees

  function PythonResolve(lookup: Lookup, j: Json): (r: Json)
    decreases j
  {
    match j
    case Str(s) => Str(Sub(lookup, s))
    case Arr(items) => Arr(seq(|items|, i requires 0 <= i < |items| => PythonResolve(lookup, items[i])))
    case Obj(fields) =>
      Obj(seq(|fields|, i requires 0 <= i < |fields| => (fields[i].0, PythonResolve(lookup, fields[i].1))))
    case _ => j
  }

  function RustResolve(lookup: Lookup, j: Json): (r: Json)
    decreases j
  {
    match j
    case Str(s) => Str(Scan(lookup, s))
    case Arr(items) => Arr(seq(|items|, i requires 0 <= i < |items| => RustResolve(lookup, items[i])))
    case Obj(fields) =>
      Obj(seq(|fields|, i requires 0 <= i < |fields| => (fields[i].0, RustResolve(lookup, fields[i].1))))
    case _ => j
  }

  /** Every string of the tree satisfies `ok`. */
  ghost predicate EveryString(j: Json, ok: string -> bool)
    decreases j
  {
    match j
    case Str(s) => ok(s)
    case Arr(items) => forall i :: 0 <= i < |items| ==> EveryString(items[i], ok)
    case Obj(fields) => forall i :: 0 <= i < |fields| ==> EveryString(fields[i].1, ok)
    case _ => true
  }

  ghost function LeavesAreStrings(context: Json): (ok: string -> bool) {
    s => forall p :: p in Paths(s) ==> StringOrAbsent(context, p)
  }

  /** On whole JSON trees the two implementations give the same tree. */
  lemma {:induction false} TreesAgree(context: Json, py: Json -> string, rs: Json -> string, j: Json)
    requires NoEmptyKey(context) && EveryString(j, LeavesAreStrings(context))
    ensures RustResolve(RustLookup(context, rs), j) == PythonResolve(PythonLookup(context, py), j)
    decreases j
  {
    match j
    case Str(s) =>
      assert LeavesAreStrings(context)(s);
      ScannerAgreesWithRegex(context, py, rs, s);
    case Arr(items) =>
      forall i | 0 <= i < |items|
        ensures RustResolve(RustLookup(context, rs), items[i]) == PythonResolve(PythonLookup(context, py), items[i])
      {
        TreesAgree(context, py, rs, items[i]);
      }
    case Obj(fields) =>
      forall i | 0 <= i < |fields|
        ensures RustResolve(RustLookup(context, rs), fields[i].1) == PythonResolve(PythonLookup(context, py), fields[i].1)
      {
        TreesAgree(context, py, rs, fields[i].1);
      }
    case _ =>
  }

  lemma {:induction false} TreesFollowStrings(rust: Lookup, python: Lookup, j: Json)
    requires SameOnStrings(rust, python)
    ensures RustResolve(rust, j) == PythonResolve(python, j)
    decreases j
  {
    match j
    case Arr(items) =>
      forall i | 0 <= i < |items| ensures RustResolve(rust, items[i]) == PythonResolve(python, items[i]) {
        TreesFollowStrings(rust, python, items[i]);
      }
    case Obj(fields) =>
      forall i | 0 <= i < |fields| ensures RustResolve(rust, fields[i].1) == PythonResolve(python, fields[i].1) {
        TreesFollowStrings(rust, python, fields[i].1);
      }
    case _ =>
  }

  ghost predicate SameOnTrees(rust: Lookup, python: Lookup) {
    forall j :: RustResolve(rust, j) == PythonResolve(python, j)
  }

  lemma SameOnTreesIff(rust: Lookup, python: Lookup)
    ensures SameOnTrees(rust, python) <==> SameOnStrings(rust, python)
  {
    if SameOnTrees(rust, python) {
      forall s ensures Scan(rust, s) == Sub(python, s) {
        assert RustResolve(rust, Str(s)) == PythonResolve(python, Str(s));
      }
    }
    if SameOnStrings(rust, python) {
      forall j ensures RustResolve(rust, j) == PythonResolve(python, j) {
        TreesFollowStrings(rust, python, j);
      }
    }
  }

  /** And on every tree if and only if the context agrees. */
  lemma {:induction false} TreesAgreeIff(context: Json, py: Json -> string, rs: Json -> string)
    ensures SameOnTrees(RustLookup(context, rs), PythonLookup(context, py)) <==> ContextAgrees(context, py, rs)
  {
    SameOnTreesIff(RustLookup(context, rs), PythonLookup(context, py));
    AgreementIff(context, py, rs);
  }

  ghost function ValuesAreInert(lookup: Lookup): (ok: string -> bool) {
    s => forall p :: p in Paths(s) && lookup(p).Some? ==> Inert(lookup(p).value)
  }

  /** Resolving a tree twice is resolving it once, when substituted values are inert. */
  lemma {:induction false} ResolvingTwice(lookup: Lookup, j: Json)
    requires EveryString(j, ValuesAreInert(lookup))
    ensures PythonResolve(lookup, PythonResolve(lookup, j)) == PythonResolve(lookup, j)
    decreases j
  {
    match j
    case Str(s) =>
      assert ValuesAreInert(lookup)(s);
      SecondPassIsIdentity(lookup, s);
    case Arr(items) =>
      forall i | 0 <= i < |items|
        ensures PythonResolve(lookup, PythonResolve(lookup, items[i])) == PythonResolve(lookup, items[i])
      {
        ResolvingTwice(lookup, items[i]);
      }
    case Obj(fields) =>
      forall i | 0 <= i < |fields|
        ensures PythonResolve(lookup, PythonResolve(lookup, fields[i].1)) == PythonResolve(lookup, fields[i].1)
      {
        ResolvingTwice(lookup, fields[i].1);
      }
    case _ =>
  }

  /** The same tree with every string blanked: its structure. */
  function Shape(j: Json): (r: Json)
    decreases j
  {
    match j
    case Str(s) => Str("")
    case Arr(items) => Arr(seq(|items|, i requires 0 <= i < |items| => Shape(items[i])))
    case Obj(fields) => Obj(seq(|fields|, i requires 0 <= i < |fields| => (fields[i].0, Shape(fields[i].1))))
    case _ => j
  }

  /** Substitution keeps the structure, the keys and everything that is not a string. */
  lemma {:induction false} StructureKept(lookup: Lookup, j: Json)
    ensures Shape(PythonResolve(lookup, j)) == Shape(j) == Shape(RustResolve(lookup, j))
    decreases j
  {
    match j
    case Arr(items) =>
      forall i | 0 <= i < |items|
        ensures Shape(PythonResolve(lookup, items[i])) == Shape(items[i]) == Shape(RustResolve(lookup, items[i]))
      {
        StructureKept(lookup, items[i]);
      }
    case Obj(fields) =>
      forall i | 0 <= i < |fields|
        ensures Shape(PythonResolve(lookup, fields[i].1)) == Shape(fields[i].1) == Shape(RustResolve(lookup, fields[i].1))
      {
        StructureKept(lookup, fields[i].1);
      }
    case _ =>
  }

  /** Strings whose placeholders are all unknown come through untouched. */
  lemma {:induction false} UnknownPlaceholdersKept(lookup: Lookup, s: string)
    requires forall p :: p in Paths(s) ==> lookup(p).None?
    ensures Sub(lookup, s) == s
    decreases |s|
  {
    if s != "" {
      if BodyLength(s) >= 1 {
        BodyLengthSound(s);
        SubMatch(lookup, s, BodyLength(s));
        UnknownPlaceholdersKept(lookup, s[BodyLength(s) + 3..]);
      } else {
        SubLiteral(lookup, s);
        UnknownPlaceholdersKept(lookup, s[1..]);
      }
    }
  }
}
