/**
 `_ChatTelemetry` (src/link/infra/serving_proxy.py:78-233): an incremental parser
 of server-sent events, delimited by LF LF or CR LF CR LF (the LF and CRLF subset of
 section 9.2.5 of the WHATWG HTML Living Standard), with the token accounting that
 rests on it.
 */
module SseStream {
  import opened Common
  import opened Search


  const LF: byte := 10
  const CR: byte := 13
  const LFLF: Bytes := [LF, LF]
  const CRLFCRLF: Bytes := [CR, LF, CR, LF]

  // ------------------------------------------------------------- delimiters

  datatype Sep = Sep(start: nat, len: nat)

  /** The earliest delimiter, as the code picks it. */
  function NextSep(buf: Bytes): (r: Option<Sep>)
    ensures r.Some? ==> (r.value.len == 2 || r.value.len == 4) && r.value.start + r.value.len <= |buf|
  {
    var lf, crlf := Find(buf, LFLF), Find(buf, CRLFCRLF);
    if lf < 0 && crlf < 0 then None
    else if crlf < 0 || (0 <= lf < crlf) then Some(Sep(lf, 2))
    else Some(Sep(crlf, 4))
  }

  predicate SepAt(buf: Bytes, i: nat, len: nat) {
    (len == 2 && MatchAt(buf, i, LFLF)) || (len == 4 && MatchAt(buf, i, CRLFCRLF))
  }

  /** No delimiter starts before `n`. */
  ghost predicate NoSepBefore(buf: Bytes, n: nat) {
    forall i: nat, len: nat :: i < n ==> !SepAt(buf, i, len)
  }

  ghost predicate NoSep(buf: Bytes) { NoSepBefore(buf, |buf|) }

  /** What `NextSep` promises, without saying how it searches. */
  lemma {:induction false} NextSepIsFirst(buf: Bytes)
    ensures
      var s := NextSep(buf);
      if s.None? then NoSep(buf)
      else SepAt(buf, s.value.start, s.value.len) && NoSepBefore(buf, s.value.start)
  {
    forall i: nat, len: nat | SepAt(buf, i, len)
      ensures NextSep(buf).Some? && NextSep(buf).value.start <= i
    {
      if len == 2 {
        FindIsFirst(buf, LFLF, i);
      } else {
        FindIsFirst(buf, CRLFCRLF, i);
      }
    }
    FindMatches(buf, LFLF);
    FindMatches(buf, CRLFCRLF);
  }

  lemma {:induction false} SepBytes(buf: Bytes, i: nat, len: nat)
    requires SepAt(buf, i, len)
    ensures i + len <= |buf|
    ensures len == 2 ==> buf[i] == LF && buf[i + 1] == LF
    ensures len == 4 ==> buf[i] == CR && buf[i + 1] == LF && buf[i + 2] == CR && buf[i + 3] == LF
  {
    var m := buf[i..i + len];
    assert m[0] == buf[i] && m[1] == buf[i + 1];
    if len == 4 {
      assert m[2] == buf[i + 2] && m[3] == buf[i + 3];
    }
  }

  lemma {:induction false} NextSepUnique(buf: Bytes, i: nat, len: nat)
    requires SepAt(buf, i, len) && NoSepBefore(buf, i)
    ensures NextSep(buf) == Some(Sep(i, len))
  {
    NextSepIsFirst(buf);
    SepBytes(buf, i, len);
    SepBytes(buf, NextSep(buf).value.start, NextSep(buf).value.len);
  }

  lemma {:induction false} SepOfPrefix(a: Bytes, b: Bytes, j: nat, l: nat)
    requires j + l <= |a|
    ensures SepAt(a + b, j, l) <==> SepAt(a, j, l)
  {
    assert (a + b)[j..j + l] == a[j..j + l];
  }

  /** Only CR LF CR LF can overhang a buffer that has a later delimiter, and then that
      one would be LF LF on its second byte: so none does. */
  lemma {:induction false} NoOverhang(a: Bytes, b: Bytes, i: nat, len: nat, j: nat, l: nat)
    requires SepAt(a, i, len) && j < i
    ensures SepAt(a + b, j, l) ==> j + l <= |a|
  {
    SepBytes(a, i, len);
    if SepAt(a + b, j, l) {
      SepBytes(a + b, j, l);
    }
  }

  /** The earliest delimiter to start is also the earliest to be complete: appending
      bytes to a buffer never uncovers an earlier delimiter than the one it has. */
  lemma {:induction false} NextSepStable(a: Bytes, b: Bytes)
    requires NextSep(a).Some?
    ensures NextSep(a + b) == NextSep(a)
  {
    var Sep(i, len) := NextSep(a).value;
    NextSepIsFirst(a);
    SepOfPrefix(a, b, i, len);
    forall j: nat, l: nat | j < i ensures !SepAt(a + b, j, l) {
      NoOverhang(a, b, i, len, j, l);
      if j + l <= |a| {
        SepOfPrefix(a, b, j, l);
      }
    }
    NextSepUnique(a + b, i, len);
  }

  // ---------------------------------------------------------------- draining

  datatype Piece = Piece(event: Bytes, delimiter: Bytes)

  datatype Drained = Drained(pieces: seq<Piece>, rest: Bytes)

  /** Every complete event of a buffer, and what is left. */
  function Drain(buf: Bytes): (r: Drained)
    decreases |buf|
  {
    var s := NextSep(buf);
    if s.None? then Drained([], buf)
    else
      var Sep(i, len) := s.value;
      var d := Drain(buf[i + len..]);
      Drained([Piece(buf[..i], buf[i..i + len])] + d.pieces, d.rest)
  }

  lemma {:induction false} DrainStep(buf: Bytes, i: nat, len: nat)
    requires NextSep(buf) == Some(Sep(i, len))
    ensures Drain(buf) == Prepend(Piece(buf[..i], buf[i..i + len]), Drain(buf[i + len..]))
  {
  }

  function Prepend(p: Piece, d: Drained): (r: Drained) { Drained([p] + d.pieces, d.rest) }

  function Append(first: Drained, second: Drained): (r: Drained) {
    Drained(first.pieces + second.pieces, second.rest)
  }

  lemma PrependAppend(p: Piece, first: Drained, second: Drained)
    ensures Append(Prepend(p, first), second) == Prepend(p, Append(first, second))
  {
  }

  lemma {:induction false} CutAppended(a: Bytes, b: Bytes, i: nat, len: nat)
    requires i + len <= |a|
    ensures (a + b)[i + len..] == a[i + len..] + b
    ensures (a + b)[..i] == a[..i] && (a + b)[i..i + len] == a[i..i + len]
  {
  }

  /** Draining in two parts is draining the whole: chunk boundaries do not matter. */
  lemma {:induction false} DrainIsIncremental(a: Bytes, b: Bytes)
    ensures Drain(a + b) == Append(Drain(a), Drain(Drain(a).rest + b))
    decreases |a|
  {
    if NextSep(a).Some? {
      var Sep(i, len) := NextSep(a).value;
      NextSepStable(a, b);
      DrainStep(a, i, len);
      DrainStep(a + b, i, len);
      CutAppended(a, b, i, len);
      DrainIsIncremental(a[i + len..], b);
      var first := Drain(a[i + len..]);
      PrependAppend(Piece(a[..i], a[i..i + len]), first, Drain(first.rest + b));
    } else {
      assert Drain(a) == Drained([], a);
    }
  }

  function Rebuild(pieces: seq<Piece>, rest: Bytes): (r: Bytes)
    decreases |pieces|
  {
    if pieces == [] then rest
    else pieces[0].event + pieces[0].delimiter + Rebuild(pieces[1..], rest)
  }

  /** Nothing is lost and nothing is left: events, delimiters and the rest give the
      input back, and neither an event nor the rest contains a delimiter. */
  lemma {:induction false} DrainIsExact(buf: Bytes)
    ensures Rebuild(Drain(buf).pieces, Drain(buf).rest) == buf
    ensures NoSep(Drain(buf).rest)
    ensures forall p :: p in Drain(buf).pieces ==> IsClean(p)
    decreases |buf|
  {
    NextSepIsFirst(buf);
    if NextSep(buf).Some? {
      var Sep(i, len) := NextSep(buf).value;
      var p, tail := Piece(buf[..i], buf[i..i + len]), buf[i + len..];
      DrainStep(buf, i, len);
      DrainIsExact(tail);
      NoSepInside(buf, i);
      RebuildPrepend(p, Drain(tail));
      CutInThree(buf, i, len);
    }
  }

  lemma {:induction false} CutInThree(buf: Bytes, i: nat, len: nat)
    requires i + len <= |buf|
    ensures buf == buf[..i] + buf[i..i + len] + buf[i + len..]
  {
  }

  ghost predicate IsClean(p: Piece) {
    NoSep(p.event) && (p.delimiter == LFLF || p.delimiter == CRLFCRLF)
  }

  lemma RebuildPrepend(p: Piece, d: Drained)
    ensures Rebuild(Prepend(p, d).pieces, d.rest) == p.event + p.delimiter + Rebuild(d.pieces, d.rest)
    ensures forall q :: q in Prepend(p, d).pieces <==> q == p || q in d.pieces
  {
    assert Prepend(p, d).pieces[1..] == d.pieces;
  }

  lemma {:induction false} NoSepInside(buf: Bytes, n: nat)
    requires n <= |buf| && NoSepBefore(buf, n)
    ensures NoSep(buf[..n])
  {
    forall i: nat, len: nat | i < n ensures !SepAt(buf[..n], i, len) {
      if i + len <= n {
        assert buf == buf[..n] + buf[n..];
        SepOfPrefix(buf[..n], buf[n..], i, len);
      }
    }
  }

  // ------------------------------------------------------- what an event means

  // `json.loads` of a payload: text that is not JSON is skipped, but bytes that do not
  // decode raise an error the parser does not catch.
  datatype Parsed = NotJson | Raises | Value(json: Json)
  type Parser = Bytes -> Parsed

  predicate Truthy(j: Json) {
    match j
    case Null => false
    case Bool(b) => b
    case Num(n) => n != 0
    case Str(s) => s != ""
    case Arr(items) => items != []
    case Obj(fields) => fields != []
  }

  type Document = seq<(string, Json)>

  /** `d.get(key)`: null when the key is missing. */
  function Get(d: Document, key: string): (r: Json) { if Field(d, key).Some? then Field(d, key).value else Null }

  // The counters, and whether an exception has ended the stream.
  datatype Tally = Tally(contentChunks: nat, usage: Option<Document>, raised: bool)

  predicate IsContent(choice: Json) {
    choice.Obj? && Get(choice.fields, "delta").Obj? && Truthy(Get(Get(choice.fields, "delta").fields, "content"))
  }

  function CountContent(choices: seq<Json>): (n: nat) {
    if choices == [] then 0 else (if IsContent(choices[0]) then 1 else 0) + CountContent(choices[1..])
  }

  /** `_absorb`: iterating over a truthy number or boolean raises. */
  function Absorb(t: Tally, d: Document): (r: Tally) {
    var t' := if Get(d, "usage").Obj? then t.(usage := Some(Get(d, "usage").fields)) else t;
    var choices := Get(d, "choices");
    if !Truthy(choices) then t'
    else if choices.Arr? then t'.(contentChunks := t'.contentChunks + CountContent(choices.items))
    else if choices.Num? || choices.Bool? then t'.(raised := true)
    else t'
  }

  predicate IsSpace(b: byte) { b == 32 || 9 <= b <= 13 }

  function StripLeft(s: Bytes): (r: Bytes) { if s != [] && IsSpace(s[0]) then StripLeft(s[1..]) else s }

  function StripRight(s: Bytes): (r: Bytes) {
    if s != [] && IsSpace(s[|s| - 1]) then StripRight(s[..|s| - 1]) else s
  }

  function Strip(s: Bytes): (r: Bytes) { StripRight(StripLeft(s)) }

  const DATA: Bytes := [100, 97, 116, 97, 58]       // "data:"
  const DONE: Bytes := [91, 68, 79, 78, 69, 93]     // "[DONE]"

  function ConsumeLine(parse: Parser, t: Tally, raw: Bytes): (r: Tally) {
    var line := Strip(raw);
    if t.raised || !(DATA <= line) then t
    else
      var payload := Strip(line[5..]);
      if payload == [] || payload == DONE then t
      else
        match parse(payload)
        case NotJson => t
        case Raises => t.(raised := true)
        case Value(json) => if json.Obj? then Absorb(t, json.fields) else t
  }

  /** `event.split(b"\\n")`, line by line. */
  function Consume(parse: Parser, t: Tally, event: Bytes): (r: Tally)
    decreases |event|
  {
    var i := Find(event, [LF]);
    if i < 0 then ConsumeLine(parse, t, event)
    else Consume(parse, ConsumeLine(parse, t, event[..i]), event[i + 1..])
  }

  function ConsumeAll(parse: Parser, t: Tally, pieces: seq<Piece>): (r: Tally)
    decreases |pieces|
  {
    if pieces == [] then t else ConsumeAll(parse, Consume(parse, t, pieces[0].event), pieces[1..])
  }

  lemma {:induction false} ConsumeAfterRaise(parse: Parser, t: Tally, event: Bytes)
    requires t.raised
    ensures Consume(parse, t, event) == t
    decreases |event|
  {
    var i := Find(event, [LF]);
    if i >= 0 {
      ConsumeAfterRaise(parse, t, event[i + 1..]);
    }
  }

  lemma {:induction false} ConsumeAllAfterRaise(parse: Parser, t: Tally, pieces: seq<Piece>)
    requires t.raised
    ensures ConsumeAll(parse, t, pieces) == t
    decreases |pieces|
  {
    if pieces != [] {
      ConsumeAfterRaise(parse, t, pieces[0].event);
      ConsumeAllAfterRaise(parse, t, pieces[1..]);
    }
  }

  lemma {:induction false} ConsumeAllSplit(parse: Parser, t: Tally, a: seq<Piece>, b: seq<Piece>)
    ensures ConsumeAll(parse, t, a + b) == ConsumeAll(parse, ConsumeAll(parse, t, a), b)
    decreases |a|
  {
    if a == [] {
      assert a + b == b;
    } else {
      assert (a + b)[1..] == a[1..] + b;
      ConsumeAllSplit(parse, Consume(parse, t, a[0].event), a[1..], b);
    }
  }

  /** Feeding `more` after `seen`: what a recorder that drained `seen` still does. */
  lemma {:induction false} StreamStep(parse: Parser, t: Tally, seen: Bytes, more: Bytes)
    ensures
      var mid := ConsumeAll(parse, t, Drain(seen).pieces);
      var next := Drain(Drain(seen).rest + more);
      && ConsumeAll(parse, t, Drain(seen + more).pieces) == ConsumeAll(parse, mid, next.pieces)
      && Drain(seen + more).rest == next.rest
      && (mid.raised ==> ConsumeAll(parse, t, Drain(seen + more).pieces) == mid)
  {
    var next := Drain(Drain(seen).rest + more);
    DrainIsIncremental(seen, more);
    ConsumeAllSplit(parse, t, Drain(seen).pieces, next.pieces);
    var mid := ConsumeAll(parse, t, Drain(seen).pieces);
    if mid.raised {
      ConsumeAllAfterRaise(parse, mid, next.pieces);
    }
  }

  // Consuming the first event of a buffer, then the rest of it.
  lemma {:induction false} ConsumeNext(parse: Parser, t: Tally, buf: Bytes, sep: nat, len: nat)
    requires NextSep(buf) == Some(Sep(sep, len))
    ensures sep + len <= |buf| && len > 0
    ensures ConsumeAll(parse, t, Drain(buf).pieces)
            == ConsumeAll(parse, Consume(parse, t, buf[..sep]), Drain(buf[sep + len..]).pieces)
    ensures Drain(buf).rest == Drain(buf[sep + len..]).rest
  {
    NextSepIsFirst(buf);
    assert Drain(buf).pieces[1..] == Drain(buf[sep + len..]).pieces;
  }

  // --------------------------------------------- what the tally says of a stream

  /** The JSON object on a line, if the line carries one. */
  function LineDocuments(parse: Parser, raw: Bytes): (r: seq<Document>) {
    var line := Strip(raw);
    var payload := if DATA <= line then Strip(line[5..]) else [];
    if payload == [] || payload == DONE || !parse(payload).Value? || !parse(payload).json.Obj? then []
    else [parse(payload).json.fields]
  }

  function EventDocuments(parse: Parser, event: Bytes): (r: seq<Document>)
    decreases |event|
  {
    var i := Find(event, [LF]);
    if i < 0 then LineDocuments(parse, event)
    else LineDocuments(parse, event[..i]) + EventDocuments(parse, event[i + 1..])
  }

  /** All the objects of a stream, in order. */
  function Documents(parse: Parser, pieces: seq<Piece>): (r: seq<Document>)
    decreases |pieces|
  {
    if pieces == [] then [] else EventDocuments(parse, pieces[0].event) + Documents(parse, pieces[1..])
  }

  function ContentIn(d: Document): (n: nat) {
    if Get(d, "choices").Arr? then CountContent(Get(d, "choices").items) else 0
  }

  function TotalContent(docs: seq<Document>): (n: nat) {
    if docs == [] then 0 else ContentIn(docs[0]) + TotalContent(docs[1..])
  }

  /** The usage object of the last document that has one. */
  function LastUsage(docs: seq<Document>, before: Option<Document>): (r: Option<Document>) {
    if docs == [] then before
    else
      var last := docs[|docs| - 1];
      if Get(last, "usage").Obj? then Some(Get(last, "usage").fields) else LastUsage(docs[..|docs| - 1], before)
  }

  lemma {:induction false} TotalContentSplit(a: seq<Document>, b: seq<Document>)
    ensures TotalContent(a + b) == TotalContent(a) + TotalContent(b)
    decreases |a|
  {
    if a == [] {
      assert a + b == b;
    } else {
      assert (a + b)[1..] == a[1..] + b;
      TotalContentSplit(a[1..], b);
    }
  }

  lemma {:induction false} LastUsageSplit(a: seq<Document>, b: seq<Document>, before: Option<Document>)
    ensures LastUsage(a + b, before) == LastUsage(b, LastUsage(a, before))
    decreases |b|
  {
    if b == [] {
      assert a + b == a;
    } else {
      assert (a + b)[..|a + b| - 1] == a + b[..|b| - 1];
      LastUsageSplit(a, b[..|b| - 1], before);
    }
  }

  // `r` is `t` after these documents, unless an exception ended the stream.
  ghost predicate Accounts(t: Tally, docs: seq<Document>, r: Tally) {
    !r.raised ==> r.contentChunks == t.contentChunks + TotalContent(docs) && r.usage == LastUsage(docs, t.usage)
  }

  lemma {:induction false} AccountsChain(t: Tally, a: seq<Document>, mid: Tally, b: seq<Document>, r: Tally)
    requires Accounts(t, a, mid) && Accounts(mid, b, r) && (mid.raised ==> r.raised)
    ensures Accounts(t, a + b, r)
  {
    TotalContentSplit(a, b);
    LastUsageSplit(a, b, t.usage);
  }

  lemma AccountsOne(t: Tally, d: Document)
    ensures Accounts(t, [d], Absorb(t, d))
  {
    assert [d][1..] == [] && [d][..0] == [];
    assert TotalContent([d]) == ContentIn(d) + TotalContent([]);
    assert CountContent([]) == 0;
  }

  lemma {:induction false} LineAccounts(parse: Parser, t: Tally, raw: Bytes)
    ensures Accounts(t, LineDocuments(parse, raw), ConsumeLine(parse, t, raw))
  {
    var docs := LineDocuments(parse, raw);
    if docs != [] {
      AccountsOne(t, docs[0]);
    }
  }

  lemma {:induction false} EventAccounts(parse: Parser, t: Tally, event: Bytes)
    ensures Accounts(t, EventDocuments(parse, event), Consume(parse, t, event))
    decreases |event|
  {
    var i := Find(event, [LF]);
    if i < 0 {
      LineAccounts(parse, t, event);
    } else {
      var mid := ConsumeLine(parse, t, event[..i]);
      LineAccounts(parse, t, event[..i]);
      EventAccounts(parse, mid, event[i + 1..]);
      if mid.raised {
        ConsumeAfterRaise(parse, mid, event[i + 1..]);
      }
      AccountsChain(t, LineDocuments(parse, event[..i]), mid,
                    EventDocuments(parse, event[i + 1..]), Consume(parse, mid, event[i + 1..]));
    }
  }

  /** Over a whole stream the tally counts the content choices of all its documents, and holds the last usage object. */
  lemma {:induction false} StreamAccounts(parse: Parser, t: Tally, pieces: seq<Piece>)
    ensures Accounts(t, Documents(parse, pieces), ConsumeAll(parse, t, pieces))
    decreases |pieces|
  {
    if pieces != [] {
      var mid := Consume(parse, t, pieces[0].event);
      EventAccounts(parse, t, pieces[0].event);
      StreamAccounts(parse, mid, pieces[1..]);
      if mid.raised {
        ConsumeAllAfterRaise(parse, mid, pieces[1..]);
      }
      AccountsChain(t, EventDocuments(parse, pieces[0].event), mid,
                    Documents(parse, pieces[1..]), ConsumeAll(parse, mid, pieces[1..]));
    }
  }

  lemma {:induction false} ConcatStep(seen: Bytes, chunks: seq<Bytes>, i: nat)
    requires i < |chunks|
    ensures seen + Concat(chunks[i..]) == (seen + chunks[i]) + Concat(chunks[i + 1..])
  {
    assert chunks[i..][0] == chunks[i] && chunks[i..][1..] == chunks[i + 1..];
  }

  // ------------------------------------------------------------- the recorder

  class ChatTelemetry {
    const parse: Parser
    var buf: Bytes
    var tally: Tally

    ghost predicate Valid()
      reads this
    {
      !tally.raised ==> NextSep(buf).None?
    }

    constructor (parse: Parser)
      ensures this.parse == parse && buf == [] && tally == Tally(0, None, false) && Valid()
    {
      this.parse := parse;
      buf := [];
      tally := Tally(0, None, false);
    }

    method ConsumeEvent(event: Bytes)
      modifies this`tally
      ensures tally == Consume(parse, old(tally), event)
    {
      var rest := event;
      var i := Find(rest, [LF]);
      while i >= 0
        invariant i == Find(rest, [LF])
        invariant Consume(parse, tally, rest) == Consume(parse, old(tally), event)
        decreases |rest|
      {
        tally := ConsumeLine(parse, tally, rest[..i]);
        rest := rest[i + 1..];
        i := Find(rest, [LF]);
      }
      tally := ConsumeLine(parse, tally, rest);
    }

    /** Feed one chunk.  After an exception the proxy reads no further chunk. */
    method IngestChunk(chunk: Bytes)
      requires Valid() && !tally.raised
      modifies this
      ensures Valid()
      ensures tally == ConsumeAll(parse, old(tally), Drain(old(buf) + chunk).pieces)
      ensures !tally.raised ==> buf == Drain(old(buf) + chunk).rest
    {
      if chunk == [] {
        assert buf + chunk == buf;
        return;
      }
      buf := buf + chunk;
      ghost var all := buf;
      while true
        invariant !tally.raised
        invariant ConsumeAll(parse, tally, Drain(buf).pieces) == ConsumeAll(parse, old(tally), Drain(all).pieces)
        invariant Drain(buf).rest == Drain(all).rest
        decreases |buf|
      {
        var lf, crlf := Find(buf, LFLF), Find(buf, CRLFCRLF);
        if lf < 0 && crlf < 0 {
          return;
        }
        var sep, len := crlf, 4;
        if crlf < 0 || (lf >= 0 && lf < crlf) {
          sep, len := lf, 2;
        }
        assert NextSep(buf) == Some(Sep(sep, len));
        ConsumeNext(parse, tally, buf, sep, len);
        var event := buf[..sep];
        buf := buf[sep + len..];
        ConsumeEvent(event);
        if tally.raised {
          ConsumeAllAfterRaise(parse, tally, Drain(buf).pieces);
          return;
        }
      }
    }

    /** Feed a whole stream, cut into chunks in any way: the outcome is that of the
        bytes alone. */
    method IngestStream(chunks: seq<Bytes>)
      requires Valid() && !tally.raised
      modifies this
      ensures Valid()
      ensures tally == ConsumeAll(parse, old(tally), Drain(old(buf) + Concat(chunks)).pieces)
      ensures !tally.raised ==> buf == Drain(old(buf) + Concat(chunks)).rest
    {
      var i := 0;
      ghost var seen := old(buf);
      assert chunks[0..] == chunks;
      while i < |chunks|
        invariant 0 <= i <= |chunks| && Valid() && !tally.raised
        invariant seen + Concat(chunks[i..]) == old(buf) + Concat(chunks)
        invariant tally == ConsumeAll(parse, old(tally), Drain(seen).pieces)
        invariant buf == Drain(seen).rest
      {
        StreamStep(parse, old(tally), seen, chunks[i]);
        IngestChunk(chunks[i]);
        ConcatStep(seen, chunks, i);
        seen := seen + chunks[i];
        i := i + 1;
        if tally.raised {
          StreamStep(parse, old(tally), seen, Concat(chunks[i..]));
          return;
        }
      }
      assert seen + [] == seen;
    }
  }

  // -------------------------------------------------------------- the record

  datatype Source = FromUsage | FromDeltas
  datatype Counts = Counts(generated: int, prompt: int, source: Source)

  /** `int(usage.get(key) or 0)`, with the reading of a numeral as a parameter; None when it raises. */
  function IntOrZero(numeral: string -> Option<int>, usage: Document, key: string): (r: Option<int>) {
    var j := Get(usage, key);
    if !Truthy(j) then Some(0)
    else
      match j
      case Num(n) => Some(n)
      case Bool(_) => Some(1)
      case Str(s) => numeral(s)
      case _ => None
  }

  /** `build_record`: a non-empty usage block wins over the count; None when it raises. */
  function Record(numeral: string -> Option<int>, t: Tally): (r: Option<Counts>) {
    if t.usage.Some? && t.usage.value != [] then
      var generated := IntOrZero(numeral, t.usage.value, "completion_tokens");
      var prompt := IntOrZero(numeral, t.usage.value, "prompt_tokens");
      if generated.None? || prompt.None? then None else Some(Counts(generated.value, prompt.value, FromUsage))
    else Some(Counts(t.contentChunks, 0, FromDeltas))
  }

  /** What the record of a whole stream says: the last usage object if it is there and not
      empty, else the number of content choices. */
  lemma {:induction false} RecordMeans(parse: Parser, numeral: string -> Option<int>, stream: Bytes)
    ensures
      var t := ConsumeAll(parse, Tally(0, None, false), Drain(stream).pieces);
      var docs := Documents(parse, Drain(stream).pieces);
      var usage := LastUsage(docs, None);
      !t.raised ==>
        if usage.None? || usage.value == [] then Record(numeral, t) == Some(Counts(TotalContent(docs), 0, FromDeltas))
        else Record(numeral, t).Some? ==>
               && Record(numeral, t).value.source == FromUsage
               && IntOrZero(numeral, usage.value, "completion_tokens") == Some(Record(numeral, t).value.generated)
               && IntOrZero(numeral, usage.value, "prompt_tokens") == Some(Record(numeral, t).value.prompt)
  {
    StreamAccounts(parse, Tally(0, None, false), Drain(stream).pieces);
  }

  /** Two recorders that saw the same bytes in different chunks report the same counts. */
  method SameBytesSameRecord(parse: Parser, numeral: string -> Option<int>, a: seq<Bytes>, b: seq<Bytes>)
    returns (x: Option<Counts>, y: Option<Counts>)
    requires Concat(a) == Concat(b)
    ensures x == y == Record(numeral, ConsumeAll(parse, Tally(0, None, false), Drain(Concat(a)).pieces))
  {
    var first := new ChatTelemetry(parse);
    var second := new ChatTelemetry(parse);
    first.IngestStream(a);
    second.IngestStream(b);
    assert [] + Concat(a) == Concat(a) && [] + Concat(b) == Concat(b);
    x, y := Record(numeral, first.tally), Record(numeral, second.tally);
  }
}
