/**
 Length-prefixed chat frames: `_net_send` writes them
 (plugins/language_model/adapter.py:411-414), `recvall` and `receive_loop` read them
 back from a TCP stream that splits anywhere (plugins/language_model/client.py:15-37).
 */
module ChatFraming {
  import opened Common


  const LIMIT: nat := 0x1_0000_0000

  /** `len(data).to_bytes(4, "big")` */
  function ToBytes4(n: nat): (r: Bytes)
    requires n < LIMIT
    ensures |r| == 4
  {
    [(n / 0x100_0000) as byte, (n / 0x1_0000 % 0x100) as byte, (n / 0x100 % 0x100) as byte, (n % 0x100) as byte]
  }

  /** `int.from_bytes(len_bytes, "big")` */
  function FromBytes4(b: Bytes): (n: nat)
    requires |b| == 4
    ensures n < LIMIT
  {
    b[0] as nat * 0x100_0000 + b[1] as nat * 0x1_0000 + b[2] as nat * 0x100 + b[3] as nat
  }

  // Dropping two bytes, or three, is dropping one at a time.
  lemma ByteByByte(n: nat)
    ensures n / 0x1_0000 == n / 0x100 / 0x100 && n / 0x100_0000 == n / 0x1_0000 / 0x100
  {
  }

  lemma LengthRoundTrip(n: nat)
    requires n < LIMIT
    ensures FromBytes4(ToBytes4(n)) == n
  {
    ByteByByte(n);
    var a, b := n / 0x100, n / 0x1_0000;
    assert n == a * 0x100 + n % 0x100;
    assert a == b * 0x100 + a % 0x100;
    assert b == (n / 0x100_0000) * 0x100 + b % 0x100;
  }

  function Frame(msg: Bytes): (r: Bytes)
    requires |msg| < LIMIT
  {
    ToBytes4(|msg|) + msg
  }

  predicate Sendable(msgs: seq<Bytes>) { forall i :: 0 <= i < |msgs| ==> |msgs[i]| < LIMIT }

  function Encode(msgs: seq<Bytes>): (r: Bytes)
    requires Sendable(msgs)
  {
    if msgs == [] then [] else Frame(msgs[0]) + Encode(msgs[1..])
  }

  /** What the client prints for a byte stream: whole frames up to the first that is
      empty or incomplete. */
  function Decode(stream: Bytes): (r: seq<Bytes>)
    decreases |stream|
  {
    if |stream| < 4 then []
    else
      var n := FromBytes4(stream[..4]);
      if n == 0 || |stream| - 4 < n then []
      else [stream[4..4 + n]] + Decode(stream[4 + n..])
  }

  // ------------------------------------------------------------ both directions

  lemma {:induction false} DecodeFrame(msg: Bytes, tail: Bytes)
    requires |msg| < LIMIT
    ensures Decode(Frame(msg) + tail) == if msg == [] then [] else [msg] + Decode(tail)
  {
    var s := Frame(msg) + tail;
    LengthRoundTrip(|msg|);
    assert s[..4] == ToBytes4(|msg|);
    assert s[4..4 + |msg|] == msg;
    assert s[4 + |msg|..] == tail;
  }

  /** The messages before the first empty one. */
  function UpToEmpty(msgs: seq<Bytes>): (r: seq<Bytes>) {
    if msgs == [] || msgs[0] == [] then [] else [msgs[0]] + UpToEmpty(msgs[1..])
  }

  /** Whatever was sent comes back in order and exactly, up to the first empty message. */
  lemma {:induction false} RoundTrip(msgs: seq<Bytes>)
    requires Sendable(msgs)
    ensures Decode(Encode(msgs)) == UpToEmpty(msgs)
    decreases |msgs|
  {
    if msgs != [] {
      DecodeFrame(msgs[0], Encode(msgs[1..]));
      RoundTrip(msgs[1..]);
    }
  }

  /** So the round trip is the identity exactly when no message is empty. */
  lemma {:induction false} RoundTripIff(msgs: seq<Bytes>)
    requires Sendable(msgs)
    ensures Decode(Encode(msgs)) == msgs <==> [] !in msgs
    decreases |msgs|
  {
    RoundTrip(msgs);
    if msgs != [] {
      assert msgs == [msgs[0]] + msgs[1..];
      RoundTrip(msgs[1..]);
      RoundTripIff(msgs[1..]);
    }
  }

  /** A stream that is cut short yields only a prefix of the whole stream's messages. */
  lemma {:induction false} CutStreamYieldsPrefix(stream: Bytes, k: nat)
    requires k <= |stream|
    ensures Decode(stream[..k]) <= Decode(stream)
    decreases |stream|
  {
    var cut := stream[..k];
    if k >= 4 {
      assert cut[..4] == stream[..4];
      var n := FromBytes4(cut[..4]);
      if n != 0 && k - 4 >= n {
        assert cut[4..4 + n] == stream[4..4 + n];
        assert cut[4 + n..] == stream[4 + n..][..k - 4 - n];
        CutStreamYieldsPrefix(stream[4 + n..], k - 4 - n);
      }
    }
  }

  // ---------------------------------------------------------------- the code

  class Connection {
    // Bytes sent and not yet received; the sender closes after the last one.
    var stream: Bytes

    constructor ()
      ensures stream == []
    {
      stream := [];
    }

    /** `_net_send`; a message of 2^32 bytes or more raises and sends nothing. */
    method NetSend(msg: Bytes) returns (ok: bool)
      modifies this
      ensures ok <==> |msg| < LIMIT
      ensures stream == if |msg| < LIMIT then old(stream) + Frame(msg) else old(stream)
    {
      if |msg| >= LIMIT {
        return false;
      }
      stream := stream + (ToBytes4(|msg|) + msg);
      return true;
    }

    /** `sock.recv(n)`: some bytes, at most `n`; none only at the end of the stream. */
    method Recv(n: nat) returns (packet: Bytes)
      requires n > 0
      modifies this
      ensures packet + stream == old(stream) && |packet| <= n
      ensures packet == [] <==> old(stream) == []
    {
      if stream == [] {
        return [];
      }
      var most := if |stream| < n then |stream| else n;
      var k :| 1 <= k <= most;
      packet := stream[..k];
      stream := stream[k..];
    }

    /** Exactly the next `n` bytes, or None if the stream ends first. */
    method RecvAll(n: nat) returns (data: Option<Bytes>)
      modifies this
      ensures |old(stream)| >= n ==> data == Some(old(stream)[..n]) && stream == old(stream)[n..]
      ensures |old(stream)| < n ==> data == None && stream == []
    {
      var got: Bytes := [];
      while |got| < n
        invariant |got| <= n && got + stream == old(stream)
        decreases n - |got|
      {
        var packet := Recv(n - |got|);
        if packet == [] {
          assert got == got + stream;
          return None;
        }
        got := got + packet;
      }
      assert old(stream)[..n] == got && old(stream)[n..] == stream;
      return Some(got);
    }

    method ReceiveLoop() returns (printed: seq<Bytes>)
      modifies this
      ensures printed == Decode(old(stream))
    {
      printed := [];
      while true
        invariant printed + Decode(stream) == Decode(old(stream))
        decreases |stream|
      {
        ghost var before := stream;
        var lenBytes := RecvAll(4);
        if lenBytes.None? || lenBytes.value == [] {
          break;
        }
        var n := FromBytes4(lenBytes.value);
        var data := RecvAll(n);
        if data.None? || data.value == [] {
          assert Decode(before) == [];
          assert printed + [] == printed;
          return;
        }
        assert before[4..4 + n] == data.value;
        assert Decode(before) == [data.value] + Decode(stream);
        printed := printed + [data.value];
      }
    }
  }

  /** Agent to client, end to end: non-empty messages arrive in order and unchanged,
      however the stream was split on the way. */
  method Deliver(msgs: seq<Bytes>) returns (printed: seq<Bytes>)
    requires Sendable(msgs)
    ensures printed == UpToEmpty(msgs)
    ensures [] !in msgs ==> printed == msgs
  {
    var conn := SendAll(msgs);
    RoundTrip(msgs);
    RoundTripIff(msgs);
    printed := conn.ReceiveLoop();
  }

  method SendAll(msgs: seq<Bytes>) returns (conn: Connection)
    requires Sendable(msgs)
    ensures fresh(conn) && conn.stream == Encode(msgs)
  {
    conn := new Connection();
    var i := 0;
    assert msgs[..0] == [];
    while i < |msgs|
      invariant 0 <= i <= |msgs|
      invariant conn.stream == Encode(msgs[..i])
    {
      EncodeSnoc(msgs[..i], msgs[i]);
      assert msgs[..i + 1] == msgs[..i] + [msgs[i]];
      var _ := conn.NetSend(msgs[i]);
      i := i + 1;
    }
    assert msgs[..|msgs|] == msgs;
  }

  lemma {:induction false} EncodeSnoc(msgs: seq<Bytes>, msg: Bytes)
    requires Sendable(msgs) && |msg| < LIMIT
    ensures Sendable(msgs + [msg]) && Encode(msgs + [msg]) == Encode(msgs) + Frame(msg)
    decreases |msgs|
  {
    var all := msgs + [msg];
    if msgs == [] {
      assert all == [msg] && [msg][1..] == [];
      assert Encode(all) == Frame(msg) + Encode([]);
      assert Frame(msg) + [] == Frame(msg) && [] + Frame(msg) == Frame(msg);
    } else {
      assert all[1..] == msgs[1..] + [msg];
      EncodeSnoc(msgs[1..], msg);
      assert Frame(msgs[0]) + (Encode(msgs[1..]) + Frame(msg)) == (Frame(msgs[0]) + Encode(msgs[1..])) + Frame(msg);
    }
  }
}
