/**
 `download` (src/link/app/updater.py:325-371): stream a resource into a
 `.partial` sidecar, resume it with a Range request, rename it when the body ends.
 */
module ResumableDownload {
  import opened Common


  // One answer to one request.  The body arrives in chunks; `broken` means that
  // reading it raised after those chunks.
  datatype Response =
    | NoAnswer
    | Answer(status: nat, chunks: seq<Bytes>, broken: bool)

  // The server: attempt number and first byte asked for (0: no Range header).
  type Server = (nat, nat) -> Response

  function Size(partial: Option<Bytes>): (n: nat) {
    if partial.Some? then |partial.value| else 0
  }

  predicate Usable(r: Response) { r.Answer? && (r.status == 200 || r.status == 206) }

  /** The sidecar after one attempt: appended to on a 206, rewritten otherwise. */
  function Attempt(partial: Option<Bytes>, r: Response): (p: Option<Bytes>) {
    if !Usable(r) then partial
    else if r.status == 206 && Size(partial) != 0 then Some(partial.value + Concat(r.chunks))
    else Some(Concat(r.chunks))
  }

  predicate Ends(r: Response) { Usable(r) && !r.broken }

  // The whole call: the sidecar, the file it was renamed to, and the last request.
  datatype Outcome = Outcome(partial: Option<Bytes>, dest: Option<Bytes>, attempts: nat, asked: nat)

  function Fetch(partial: Option<Bytes>, server: Server, i: nat, retries: nat): (r: Outcome)
    requires i <= retries
    decreases retries - i
  {
    if i == retries then Outcome(partial, None, retries, Size(partial))
    else
      var answer := server(i, Size(partial));
      var partial' := Attempt(partial, answer);
      if Ends(answer) then Outcome(None, partial', i + 1, Size(partial))
      else Fetch(partial', server, i + 1, retries)
  }

  class Sidecar {
    var partial: Option<Bytes>
    var dest: Option<Bytes>

    constructor (partial: Option<Bytes>, dest: Option<Bytes>)
      ensures this.partial == partial && this.dest == dest
    {
      this.partial, this.dest := partial, dest;
    }

    /** The chunk loop: empty chunks are skipped. */
    method AppendChunks(chunks: seq<Bytes>)
      requires partial.Some?
      modifies this`partial
      ensures partial == Some(old(partial.value) + Concat(chunks))
    {
      var k := 0;
      while k < |chunks|
        invariant 0 <= k <= |chunks|
        invariant partial.Some? && partial.value + Concat(chunks[k..]) == old(partial.value) + Concat(chunks)
      {
        TakeChunk(partial.value, chunks, k);
        if |chunks[k]| != 0 {
          partial := Some(partial.value + chunks[k]);
        }
        k := k + 1;
      }
      assert Concat(chunks[k..]) == [] && partial.value + [] == partial.value;
    }

    /** Returns whether `dest` was published; otherwise the call raised DownloadFailed. */
    method Download(server: Server, retries: nat) returns (ok: bool)
      modifies this
      ensures ok <==> Fetch(old(partial), server, 0, retries).dest.Some?
      ensures partial == Fetch(old(partial), server, 0, retries).partial
      ensures dest == if ok then Fetch(old(partial), server, 0, retries).dest else old(dest)
    {
      var attempt := 0;
      while attempt < retries
        invariant 0 <= attempt <= retries
        invariant Fetch(partial, server, attempt, retries) == Fetch(old(partial), server, 0, retries)
        invariant dest == old(dest)
      {
        var existing := Size(partial);
        var r := server(attempt, existing);
        if Usable(r) {
          if !(r.status == 206 && existing != 0) {
            partial := Some([]);
          }
          AppendChunks(r.chunks);
          assert [] + Concat(r.chunks) == Concat(r.chunks);
          if !r.broken {
            dest := partial;
            partial := None;
            return true;
          }
        }
        attempt := attempt + 1;
      }
      return false;
    }
  }

  lemma {:induction false} TakeChunk(done: Bytes, chunks: seq<Bytes>, k: nat)
    requires k < |chunks|
    ensures done + Concat(chunks[k..]) == (done + chunks[k]) + Concat(chunks[k + 1..])
    ensures |chunks[k]| == 0 ==> done + chunks[k] == done
  {
    assert chunks[k..][0] == chunks[k] && chunks[k..][1..] == chunks[k + 1..];
  }

  // ----------------------------------------------------- when a call delivers

  /** A body that arrived to its end, from the start or from the byte asked for. */
  predicate Whole(r: Response) { r.Answer? && r.status in [200, 206] && !r.broken }

  /** The sidecar before attempt `n`, if the call gets that far. */
  function SidecarBefore(partial: Option<Bytes>, server: Server, n: nat): (r: Option<Bytes>) {
    if n == 0 then partial
    else
      var before := SidecarBefore(partial, server, n - 1);
      Attempt(before, server(n - 1, Size(before)))
  }

  function Answered(partial: Option<Bytes>, server: Server, n: nat): (r: Response) {
    server(n, Size(SidecarBefore(partial, server, n)))
  }

  lemma {:induction false} FetchFrom(partial: Option<Bytes>, server: Server, i: nat, retries: nat)
    requires i <= retries
    ensures
      var r := Fetch(SidecarBefore(partial, server, i), server, i, retries);
      if r.dest.None? then
        && (forall n: nat :: i <= n < retries ==> !Whole(Answered(partial, server, n)))
        && r.partial == SidecarBefore(partial, server, retries)
      else
        && i < r.attempts <= retries && Whole(Answered(partial, server, r.attempts - 1))
        && (forall n: nat :: i <= n < r.attempts - 1 ==> !Whole(Answered(partial, server, n)))
        && r.partial.None? && r.dest == SidecarBefore(partial, server, r.attempts)
    decreases retries - i
  {
    if i < retries {
      var before, answer := SidecarBefore(partial, server, i), Answered(partial, server, i);
      assert SidecarBefore(partial, server, i + 1) == Attempt(before, answer);
      if !Whole(answer) {
        assert !Ends(answer);
        FetchFrom(partial, server, i + 1, retries);
      }
    }
  }

  /** A call asks until the first body that arrives to its end, and publishes the sidecar as it is then; if none of
      its attempts gets one it raises, and keeps the sidecar. */
  lemma {:induction false} DeliversIff(partial: Option<Bytes>, server: Server, retries: nat)
    ensures
      var r := Fetch(partial, server, 0, retries);
      && (r.dest.Some? <==> exists n: nat :: n < retries && Whole(Answered(partial, server, n)))
      && if r.dest.None? then r.partial == SidecarBefore(partial, server, retries)
         else && 0 < r.attempts <= retries && Whole(Answered(partial, server, r.attempts - 1))
              && (forall n: nat :: n < r.attempts - 1 ==> !Whole(Answered(partial, server, n)))
              && r.partial.None? && r.dest == SidecarBefore(partial, server, r.attempts)
  {
    FetchFrom(partial, server, 0, retries);
  }

  // ------------------------------------------------ against an honest server

  predicate IsPrefix(a: Bytes, b: Bytes) { |a| <= |b| && a == b[..|a|] }

  /** The sidecar holds a prefix of the resource. */
  predicate Sound(partial: Option<Bytes>, resource: Bytes) {
    partial.Some? ==> IsPrefix(partial.value, resource)
  }

  /** Sections 14.2 and 15.3.7 of RFC 9110 for a resource that does not change: a 200
      carries it from the start, a 206 from the byte asked for, which must exist;
      without a Range header there is no 206.  Bodies may stop early. */
  predicate Honest(resource: Bytes, asked: nat, r: Response) {
    r.Answer? ==>
      && (r.status == 200 ==> IsPrefix(Concat(r.chunks), resource))
      && (r.status == 206 ==> 0 < asked < |resource| && IsPrefix(Concat(r.chunks), resource[asked..]))
  }

  ghost predicate HonestServer(server: Server, resource: Bytes) {
    forall i: nat, asked: nat :: Honest(resource, asked, server(i, asked))
  }

  /** The body of this answer arrived in full. */
  predicate InFull(resource: Bytes, asked: nat, r: Response) {
    r.Answer? && Concat(r.chunks) == if r.status == 206 && asked <= |resource| then resource[asked..] else resource
  }

  lemma {:induction false} AttemptStaysSound(partial: Option<Bytes>, r: Response, resource: Bytes)
    requires Sound(partial, resource) && Honest(resource, Size(partial), r)
    ensures Sound(Attempt(partial, r), resource)
    ensures Ends(r) && InFull(resource, Size(partial), r) ==> Attempt(partial, r) == Some(resource)
  {
    if Usable(r) && r.status == 206 && Size(partial) != 0 {
      var body, n := Concat(r.chunks), |partial.value|;
      assert resource == resource[..n] + resource[n..];
      assert partial.value + body == (resource[..n] + resource[n..])[..n + |body|];
    }
  }

  /** A call leaves a prefix of the resource in the sidecar, or publishes one; what it
      publishes is the whole resource if the last body arrived in full. */
  lemma {:induction false} FetchIsSound(partial: Option<Bytes>, server: Server, i: nat, retries: nat, resource: Bytes)
    requires i <= retries && Sound(partial, resource) && HonestServer(server, resource)
    ensures
      var r := Fetch(partial, server, i, retries);
      && Sound(r.partial, resource) && Sound(r.dest, resource)
      && (r.dest.Some? ==>
            && i < r.attempts <= retries
            && Ends(server(r.attempts - 1, r.asked))
            && (InFull(resource, r.asked, server(r.attempts - 1, r.asked)) ==> r.dest.value == resource))
    decreases retries - i
  {
    if i < retries {
      var answer := server(i, Size(partial));
      AttemptStaysSound(partial, answer, resource);
      if !Ends(answer) {
        FetchIsSound(Attempt(partial, answer), server, i + 1, retries, resource);
      }
    }
  }

  lemma {:induction false} ConcatSplit(a: seq<Bytes>, b: seq<Bytes>)
    ensures Concat(a + b) == Concat(a) + Concat(b)
    decreases |a|
  {
    if a == [] {
      assert a + b == b;
    } else {
      assert (a + b)[1..] == a[1..] + b;
      ConcatSplit(a[1..], b);
    }
  }

  /** What a crash leaves after `k` chunks is what a broken answer would leave. */
  function CutOff(r: Response, k: nat): (c: Response) {
    if r.Answer? && k <= |r.chunks| then Answer(r.status, r.chunks[..k], true) else r
  }

  lemma {:induction false} CutOffIsHonest(resource: Bytes, asked: nat, r: Response, k: nat)
    requires Honest(resource, asked, r)
    ensures Honest(resource, asked, CutOff(r, k))
  {
    if r.Answer? && k <= |r.chunks| {
      ConcatSplit(r.chunks[..k], r.chunks[k..]);
      assert r.chunks == r.chunks[..k] + r.chunks[k..];
      var whole, cut := Concat(r.chunks), Concat(r.chunks[..k]);
      assert cut == whole[..|cut|];
      if r.status == 206 && 0 < asked < |resource| && IsPrefix(whole, resource[asked..]) {
        assert cut == resource[asked..][..|whole|][..|cut|];
      }
      if r.status == 200 && IsPrefix(whole, resource) {
        assert cut == resource[..|whole|][..|cut|];
      }
    }
  }

  // Attempts of any number of processes on the same sidecar: each answer may be cut
  // off by a crash after some chunk, or read to its end.
  datatype Try = Try(answer: Response, crashAfter: Option<nat>)

  function Effect(t: Try): (r: Response) {
    if t.crashAfter.Some? then CutOff(t.answer, t.crashAfter.value) else t.answer
  }

  ghost predicate HonestHistory(partial: Option<Bytes>, tries: seq<Try>, resource: Bytes)
    decreases |tries|
  {
    tries == [] ||
    (Honest(resource, Size(partial), tries[0].answer)
     && HonestHistory(Attempt(partial, Effect(tries[0])), tries[1..], resource))
  }

  function AfterTries(partial: Option<Bytes>, tries: seq<Try>): (r: Option<Bytes>)
    decreases |tries|
  {
    if tries == [] then partial else AfterTries(Attempt(partial, Effect(tries[0])), tries[1..])
  }

  /** Across every sequence of attempts, restarts and crashes the sidecar stays a
      prefix of the resource. */
  lemma {:induction false} SidecarAlwaysPrefix(partial: Option<Bytes>, tries: seq<Try>, resource: Bytes)
    requires Sound(partial, resource) && HonestHistory(partial, tries, resource)
    ensures Sound(AfterTries(partial, tries), resource)
    decreases |tries|
  {
    if tries != [] {
      var t := tries[0];
      if t.crashAfter.Some? {
        CutOffIsHonest(resource, Size(partial), t.answer, t.crashAfter.value);
      }
      AttemptStaysSound(partial, Effect(t), resource);
      SidecarAlwaysPrefix(Attempt(partial, Effect(t)), tries[1..], resource);
    }
  }

  // -------------------------------------------- when a resumed download succeeds

  /** A server that always delivers, and answers an unsatisfiable range with 416. */
  function RangeServer(resource: Bytes): (s: Server) {
    (i: nat, asked: nat) =>
      if asked == 0 then Answer(200, [resource], false)
      else if asked < |resource| then Answer(206, [resource[asked..]], false)
      else Answer(416, [], false)
  }

  lemma {:induction false} ConcatOne(b: Bytes)
    ensures Concat([b]) == b
  {
    assert [b][1..] == [];
  }

  lemma {:induction false} FullSidecarStaysStuck(partial: Option<Bytes>, resource: Bytes, i: nat, retries: nat)
    requires i <= retries && Size(partial) > 0 && Size(partial) >= |resource|
    ensures Fetch(partial, RangeServer(resource), i, retries) == Outcome(partial, None, retries, Size(partial))
    decreases retries - i
  {
    if i < retries {
      FullSidecarStaysStuck(partial, resource, i + 1, retries);
    }
  }

  /** Even from a server that never fails, a call delivers iff the sidecar is not
      already complete: a crash between the last write and the rename leaves a full
      sidecar, every later call asks for the byte after it, and gives up. */
  lemma {:induction false} ResumeSucceedsIff(partial: Option<Bytes>, resource: Bytes, retries: nat)
    requires retries > 0 && Sound(partial, resource)
    ensures
      var r := Fetch(partial, RangeServer(resource), 0, retries);
      && (r.dest == Some(resource) <==> Size(partial) == 0 || Size(partial) < |resource|)
      && (r.dest.None? <==> Size(partial) != 0 && partial == Some(resource))
  {
    var server := RangeServer(resource);
    var asked := Size(partial);
    ConcatOne(resource);
    if asked == 0 || asked < |resource| {
      ConcatOne(resource[asked..]);
      AttemptStaysSound(partial, server(0, asked), resource);
    } else {
      FullSidecarStaysStuck(partial, resource, 0, retries);
    }
  }

  /** The same call, however often it is repeated, leaves the full sidecar as it was. */
  lemma {:induction false} StuckIsPermanent(partial: Option<Bytes>, resource: Bytes, retries: nat)
    requires partial == Some(resource) && resource != []
    ensures Fetch(partial, RangeServer(resource), 0, retries).partial == partial
    ensures HonestServer(RangeServer(resource), resource)
  {
    FullSidecarStaysStuck(partial, resource, 0, retries);
    forall i: nat, asked: nat ensures Honest(resource, asked, RangeServer(resource)(i, asked)) {
      ConcatOne(resource);
      if 0 < asked < |resource| {
        ConcatOne(resource[asked..]);
      }
    }
  }

  /** Such a history: the whole resource arrives in one chunk, and the process dies before the rename.
      From then on a server that never fails is asked for what is not there. */
  lemma {:induction false} CrashBeforeRenameIsFatal(resource: Bytes, retries: nat)
    requires resource != []
    ensures var lost := [Try(Answer(200, [resource], false), Some(1))];
            HonestHistory(None, lost, resource)
            && AfterTries(None, lost) == Some(resource)
            && Fetch(AfterTries(None, lost), RangeServer(resource), 0, retries).dest == None
  {
    var answer := Answer(200, [resource], false);
    var lost := [Try(answer, Some(1))];
    ConcatOne(resource);
    assert [resource][..1] == [resource] && lost[1..] == [];
    assert Effect(lost[0]) == Answer(200, [resource], true);
    assert Attempt(None, Effect(lost[0])) == Some(resource);
    assert HonestHistory(Some(resource), [], resource) && AfterTries(Some(resource), []) == Some(resource);
    FullSidecarStaysStuck(Some(resource), resource, 0, retries);
  }
}
