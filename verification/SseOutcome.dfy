/**
 What the token accounting of `_ChatTelemetry` comes to (src/link/infra/serving_proxy.py:131-207): which
 lines of a stream are read, what makes it raise, what it counts, and what the record says of the counts.
 */
module SseOutcome {
  import opened Common
  import opened Search
  import opened SseStream

  // --------------------------------------------------------------- lines of data

  // Space, tab, line feed, vertical tab, form feed, carriage return.
  predicate White(b: byte) { b in [32, 9, 10, 11, 12, 13] }

  predicate Blank(s: Bytes) { forall i :: 0 <= i < |s| ==> White(s[i]) }

  /** Without white space at either end. */
  predicate Trim(s: Bytes) { s == [] || (!White(s[0]) && !White(s[|s| - 1])) }

  lemma {:induction false} StripLeftMeans(s: Bytes) returns (lead: Bytes)
    ensures s == lead + StripLeft(s) && Blank(lead) && (StripLeft(s) != [] ==> !White(StripLeft(s)[0]))
    decreases |s|
  {
    if s != [] && IsSpace(s[0]) {
      var rest := StripLeftMeans(s[1..]);
      lead := [s[0]] + rest;
      assert s == [s[0]] + s[1..];
    } else {
      lead := [];
    }
  }

  lemma {:induction false} PutBack(s: Bytes, kept: Bytes, rest: Bytes)
    requires s != [] && s[..|s| - 1] == kept + rest && Blank(rest) && White(s[|s| - 1])
    ensures s == kept + (rest + [s[|s| - 1]]) && Blank(rest + [s[|s| - 1]])
  {
    assert s == s[..|s| - 1] + [s[|s| - 1]];
  }

  lemma {:induction false} StripRightMeans(s: Bytes) returns (trail: Bytes)
    ensures s == StripRight(s) + trail && Blank(trail)
    ensures StripRight(s) != [] ==> !White(StripRight(s)[|StripRight(s)| - 1])
    decreases |s|
  {
    if s != [] && IsSpace(s[|s| - 1]) {
      var front := s[..|s| - 1];
      var rest := StripRightMeans(front);
      trail := rest + [s[|s| - 1]];
      PutBack(s, StripRight(front), rest);
    } else {
      trail := [];
    }
  }

  /** Stripping takes white space off both ends, and all of it. */
  lemma {:induction false} StripMeans(s: Bytes) returns (lead: Bytes, trail: Bytes)
    ensures s == lead + Strip(s) + trail && Blank(lead) && Blank(trail) && Trim(Strip(s))
  {
    lead := StripLeftMeans(s);
    trail := StripRightMeans(StripLeft(s));
    assert Strip(s) != [] ==> Strip(s)[0] == (Strip(s) + trail)[0] == StripLeft(s)[0];
    assert lead + (Strip(s) + trail) == lead + Strip(s) + trail;
  }

  /** What a line carries: the text after `data:`, unless that is nothing or the end marker. */
  function Payload(raw: Bytes): (r: Option<Bytes>) {
    var line := Strip(raw);
    if !(DATA <= line) then None
    else
      var payload := Strip(line[|DATA|..]);
      if payload == [] || payload == DONE then None else Some(payload)
  }

  /** All the lines of the events, in order. */
  function Lines(pieces: seq<Piece>): (r: seq<Bytes>)
    decreases |pieces|
  {
    if pieces == [] then [] else Split(pieces[0].event, LF) + Lines(pieces[1..])
  }

  function ConsumeLines(parse: Parser, t: Tally, lines: seq<Bytes>): (r: Tally)
    decreases |lines|
  {
    if lines == [] then t else ConsumeLines(parse, ConsumeLine(parse, t, lines[0]), lines[1..])
  }

  lemma {:induction false} ConsumeLinesSplit(parse: Parser, t: Tally, a: seq<Bytes>, b: seq<Bytes>)
    ensures ConsumeLines(parse, t, a + b) == ConsumeLines(parse, ConsumeLines(parse, t, a), b)
    decreases |a|
  {
    if a == [] {
      assert a + b == b;
    } else {
      assert (a + b)[1..] == a[1..] + b;
      ConsumeLinesSplit(parse, ConsumeLine(parse, t, a[0]), a[1..], b);
    }
  }

  lemma {:induction false} EventIsItsLines(parse: Parser, t: Tally, event: Bytes)
    ensures Consume(parse, t, event) == ConsumeLines(parse, t, Split(event, LF))
    decreases |event|
  {
    var lines, i := Split(event, LF), Find(event, [LF]);
    if i < 0 {
      assert lines[1..] == [];
    } else {
      assert lines[1..] == Split(event[i + 1..], LF);
      EventIsItsLines(parse, ConsumeLine(parse, t, event[..i]), event[i + 1..]);
    }
  }

  /** A stream is consumed as its lines are, one after the other. */
  lemma {:induction false} StreamIsItsLines(parse: Parser, t: Tally, pieces: seq<Piece>)
    ensures ConsumeAll(parse, t, pieces) == ConsumeLines(parse, t, Lines(pieces))
    decreases |pieces|
  {
    if pieces != [] {
      var mid := Consume(parse, t, pieces[0].event);
      EventIsItsLines(parse, t, pieces[0].event);
      StreamIsItsLines(parse, mid, pieces[1..]);
      ConsumeLinesSplit(parse, t, Split(pieces[0].event, LF), Lines(pieces[1..]));
    }
  }

  // ------------------------------------------------------------ when it raises

  /** Iterating over these raises: a number other than zero, and true. */
  predicate NotIterable(choices: Json) { choices == Bool(true) || (choices.Num? && choices.n != 0) }

  /** The payload cannot be decoded, or is an object whose choices cannot be iterated over. */
  predicate RaisesOn(parse: Parser, raw: Bytes) {
    Payload(raw).Some?
    && match parse(Payload(raw).value)
       case NotJson => false
       case Raises => true
       case Value(json) => json.Obj? && Field(json.fields, "choices").Some? && NotIterable(Field(json.fields, "choices").value)
  }

  lemma LineRaisesIff(parse: Parser, t: Tally, raw: Bytes)
    requires !t.raised
    ensures ConsumeLine(parse, t, raw).raised <==> RaisesOn(parse, raw)
  {
  }

  lemma {:induction false} LinesRaiseIff(parse: Parser, t: Tally, lines: seq<Bytes>)
    ensures ConsumeLines(parse, t, lines).raised <==> t.raised || exists raw :: raw in lines && RaisesOn(parse, raw)
    decreases |lines|
  {
    if lines != [] {
      assert forall raw :: raw in lines <==> raw == lines[0] || raw in lines[1..];
      if !t.raised {
        LineRaisesIff(parse, t, lines[0]);
      }
      LinesRaiseIff(parse, ConsumeLine(parse, t, lines[0]), lines[1..]);
    }
  }

  /** The stream ends in an exception if and only if one of its lines carries such a payload. */
  lemma {:induction false} StreamRaisesIff(parse: Parser, t: Tally, pieces: seq<Piece>)
    ensures ConsumeAll(parse, t, pieces).raised <==>
            t.raised || exists raw :: raw in Lines(pieces) && RaisesOn(parse, raw)
  {
    StreamIsItsLines(parse, t, pieces);
    LinesRaiseIff(parse, t, Lines(pieces));
  }

  // ------------------------------------------------------------ what it counts

  /** The values Python takes for false. */
  predicate Falsy(j: Json) {
    j == Null || j == Bool(false) || j == Num(0) || j == Str("") || j == Arr([]) || j == Obj([])
  }

  /** An object with an object `delta` with a `content` that is there and not false. */
  predicate HasContent(choice: Json) {
    && choice.Obj? && Field(choice.fields, "delta").Some? && Field(choice.fields, "delta").value.Obj?
    && var content := Field(Field(choice.fields, "delta").value.fields, "content");
       content.Some? && !Falsy(content.value)
  }

  function ContentAt(choices: seq<Json>, from: nat): (r: set<nat>) {
    set k: nat | from <= k < |choices| && HasContent(choices[k])
  }

  lemma {:induction false} ContentStep(choices: seq<Json>, from: nat)
    requires from < |choices|
    ensures |ContentAt(choices, from)| == |ContentAt(choices, from + 1)| + if HasContent(choices[from]) then 1 else 0
  {
    if HasContent(choices[from]) {
      assert ContentAt(choices, from) == ContentAt(choices, from + 1) + {from};
    } else {
      assert ContentAt(choices, from) == ContentAt(choices, from + 1);
    }
  }

  lemma CountOne(choice: Json)
    ensures IsContent(choice) <==> HasContent(choice)
  {
  }

  lemma {:induction false} CountFrom(choices: seq<Json>, from: nat)
    requires from <= |choices|
    ensures CountContent(choices[from..]) == |ContentAt(choices, from)|
    decreases |choices| - from
  {
    if from == |choices| {
      assert ContentAt(choices, from) == {};
    } else {
      CountFrom(choices, from + 1);
      assert choices[from..][0] == choices[from] && choices[from..][1..] == choices[from + 1..];
      CountOne(choices[from]);
      ContentStep(choices, from);
    }
  }

  /** The count of a list of choices is the number of places in it that have content. */
  lemma {:induction false} CountMeans(choices: seq<Json>)
    ensures CountContent(choices) == |set k: nat | k < |choices| && HasContent(choices[k])|
  {
    CountFrom(choices, 0);
    assert choices[0..] == choices;
    assert ContentAt(choices, 0) == set k: nat | k < |choices| && HasContent(choices[k]);
  }

  /** The objects the lines carry, in order. */
  function Objects(parse: Parser, lines: seq<Bytes>): (r: seq<Document>)
    decreases |lines|
  {
    if lines == [] then []
    else
      var json := if Payload(lines[0]).Some? then parse(Payload(lines[0]).value) else NotJson;
      (if json.Value? && json.json.Obj? then [json.json.fields] else []) + Objects(parse, lines[1..])
  }

  lemma {:induction false} ObjectsSplit(parse: Parser, a: seq<Bytes>, b: seq<Bytes>)
    ensures Objects(parse, a + b) == Objects(parse, a) + Objects(parse, b)
    decreases |a|
  {
    if a == [] {
      assert a + b == b;
    } else {
      assert (a + b)[1..] == a[1..] + b;
      ObjectsSplit(parse, a[1..], b);
    }
  }

  lemma {:induction false} EventObjects(parse: Parser, event: Bytes)
    ensures EventDocuments(parse, event) == Objects(parse, Split(event, LF))
    decreases |event|
  {
    var lines, i := Split(event, LF), Find(event, [LF]);
    assert Objects(parse, lines) == LineDocuments(parse, lines[0]) + Objects(parse, lines[1..]);
    if i < 0 {
      assert lines[1..] == [];
    } else {
      assert lines[1..] == Split(event[i + 1..], LF);
      EventObjects(parse, event[i + 1..]);
    }
  }

  /** The documents that are counted are the JSON objects of the stream's lines, in order. */
  lemma {:induction false} StreamObjects(parse: Parser, pieces: seq<Piece>)
    ensures Documents(parse, pieces) == Objects(parse, Lines(pieces))
    decreases |pieces|
  {
    if pieces != [] {
      EventObjects(parse, pieces[0].event);
      StreamObjects(parse, pieces[1..]);
      ObjectsSplit(parse, Split(pieces[0].event, LF), Lines(pieces[1..]));
    }
  }

  // ---------------------------------------------------------------- the record

  /** What a value of the usage block counts for: nothing if it is false, else the number it is or reads as. */
  predicate Reads(numeral: string -> Option<int>, j: Json, n: int) {
    if Falsy(j) then n == 0 else j == Num(n) || (j == Bool(true) && n == 1) || (j.Str? && numeral(j.s) == Some(n))
  }

  /** Neither false, nor a number, true, or a string that reads as a number. */
  predicate Unreadable(numeral: string -> Option<int>, j: Json) {
    !Falsy(j) && !j.Num? && j != Bool(true) && !(j.Str? && numeral(j.s).Some?)
  }

  function Entry(usage: Document, key: string): (r: Json) {
    if Field(usage, key).Some? then Field(usage, key).value else Null
  }

  lemma IntOrZeroReads(numeral: string -> Option<int>, usage: Document, key: string)
    ensures var r := IntOrZero(numeral, usage, key);
            if r.None? then Unreadable(numeral, Entry(usage, key))
            else !Unreadable(numeral, Entry(usage, key)) && Reads(numeral, Entry(usage, key), r.value)
  {
  }

  /** Building the record raises if and only if a non-empty usage block has a value that cannot be read; the
      numbers are those of the block if it is not empty, and else the count of content and no prompt. */
  lemma {:induction false} RecordRaisesIff(numeral: string -> Option<int>, t: Tally)
    ensures
      var r := Record(numeral, t);
      if t.usage.Some? && t.usage.value != [] then
        var generated, prompt := Entry(t.usage.value, "completion_tokens"), Entry(t.usage.value, "prompt_tokens");
        && (r.None? <==> Unreadable(numeral, generated) || Unreadable(numeral, prompt))
        && (r.Some? ==> r.value.source == FromUsage && Reads(numeral, generated, r.value.generated)
                        && Reads(numeral, prompt, r.value.prompt))
      else r == Some(Counts(t.contentChunks, 0, FromDeltas))
  {
    if t.usage.Some? {
      IntOrZeroReads(numeral, t.usage.value, "completion_tokens");
      IntOrZeroReads(numeral, t.usage.value, "prompt_tokens");
    }
  }

  /** Over the whole call: the record of a stream is missing if and only if one of its lines raises or its last
      usage block, not empty, has a value that cannot be read. */
  lemma {:induction false} RecordIsMissingIff(parse: Parser, numeral: string -> Option<int>, stream: Bytes)
    ensures
      var pieces := Drain(stream).pieces;
      var t := ConsumeAll(parse, Tally(0, None, false), pieces);
      var usage := LastUsage(Documents(parse, pieces), None);
      t.raised || Record(numeral, t).None? <==>
        || (exists raw :: raw in Lines(pieces) && RaisesOn(parse, raw))
        || (usage.Some? && usage.value != []
            && (Unreadable(numeral, Entry(usage.value, "completion_tokens")) || Unreadable(numeral, Entry(usage.value, "prompt_tokens"))))
  {
    var pieces := Drain(stream).pieces;
    StreamRaisesIff(parse, Tally(0, None, false), pieces);
    StreamAccounts(parse, Tally(0, None, false), pieces);
    RecordRaisesIff(numeral, ConsumeAll(parse, Tally(0, None, false), pieces));
  }
}
