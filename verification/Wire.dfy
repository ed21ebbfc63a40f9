/** Length-prefixed packets over a byte stream: the one-shot parser, `Send`'s encoding, and what links them. */
module Wire {
  import opened Machine

  type byte = x: int | 0 <= x < 0x100

  const HEADER_SIZE := 4
  const MAX_PACKET_SIZE := 4096
  const MAX_RECV_BUFFER_SIZE := 8192

  datatype Packet = Packet(kind: uint16, payload: seq<byte>)

  /** A little-endian 16-bit field. */
  function Word(lo: byte, hi: byte): uint16 { (lo as int) + 0x100 * (hi as int) }

  /** The header's two fields. */
  function Length(s: seq<byte>): uint16
    requires |s| >= HEADER_SIZE
  {
    Word(s[0], s[1])
  }

  function Kind(s: seq<byte>): uint16
    requires |s| >= HEADER_SIZE
  {
    Word(s[2], s[3])
  }

  /** A whole packet stands at the front. */
  predicate Complete(s: seq<byte>) { |s| >= HEADER_SIZE && Length(s) <= |s| }

  /** What the packet callback is handed; a length below the header size leaves no payload of its own. */
  function Front(s: seq<byte>): Packet
    requires Complete(s)
  {
    Packet(Kind(s), if Length(s) >= HEADER_SIZE then s[HEADER_SIZE..Length(s)] else [])
  }

  /** `stuck`: a zero length stands at the front, which the decoding loops never get past. */
  datatype Parsed = Parsed(packets: seq<Packet>, rest: seq<byte>, stuck: bool)

  /** The one-shot parse of a byte string. */
  function Parse(s: seq<byte>): (r: Parsed)
    ensures |r.rest| <= |s|
    decreases |s|
  {
    if !Complete(s) then Parsed([], s, false)
    else if Length(s) == 0 then Parsed([], s, true)
    else
      var r := Parse(s[Length(s)..]);
      Parsed([Front(s)] + r.packets, r.rest, r.stuck)
  }

  lemma ParseFirst(s: seq<byte>)
    requires Complete(s) && !Parse(s).stuck
    ensures Length(s) > 0
    ensures var r := Parse(s[Length(s)..]);
            Parse(s).packets == [Front(s)] + r.packets && r.rest == Parse(s).rest && !r.stuck
  {
  }

  lemma Assoc<T>(a: seq<T>, b: seq<T>, c: seq<T>)
    ensures (a + b) + c == a + (b + c)
  {
  }

  /** One turn of a decoding loop that has `done` behind it. */
  lemma ParseStep(s: seq<byte>, done: seq<Packet>)
    requires Complete(s) && !Parse(s).stuck
    ensures Length(s) > 0
    ensures var r := Parse(s[Length(s)..]);
            && r.rest == Parse(s).rest && !r.stuck
            && (done + [Front(s)]) + r.packets == done + Parse(s).packets
  {
    ParseFirst(s);
    hide Parse, Complete, Length;
    Assoc(done, [Front(s)], Parse(s[Length(s)..]).packets);
  }

  lemma NothingMore(s: seq<byte>)
    requires !Complete(s)
    ensures Parse(s) == Parsed([], s, false)
  {
  }

  lemma NothingReceived(s: seq<byte>)
    ensures Parse(s[..0]) == Parsed([], [], false) && Handled([], {}) == []
  {
  }

  lemma FrontOfLonger(s: seq<byte>, more: seq<byte>)
    requires Complete(s)
    ensures Complete(s + more) && Length(s + more) == Length(s) && Front(s + more) == Front(s)
    ensures (s + more)[Length(s)..] == s[Length(s)..] + more
  {
    var n := Length(s);
    if n >= HEADER_SIZE { assert (s + more)[HEADER_SIZE..n] == s[HEADER_SIZE..n]; }
  }

  /** A parse with packets already delivered in front of it. */
  function After(done: seq<Packet>, r: Parsed): Parsed { Parsed(done + r.packets, r.rest, r.stuck) }

  lemma ParseLonger(s: seq<byte>, more: seq<byte>)
    requires Complete(s) && Length(s) > 0
    ensures Parse(s) == After([Front(s)], Parse(s[Length(s)..]))
    ensures Parse(s + more) == After([Front(s)], Parse(s[Length(s)..] + more))
  {
    FrontOfLonger(s, more);
  }

  /** Cutting a stream anywhere does not change what is delivered or what stays buffered. */
  lemma {:induction false} ParseSplit(s: seq<byte>, more: seq<byte>)
    ensures Parse(s + more) == After(Parse(s).packets, Parse(Parse(s).rest + more))
    decreases |s|
  {
    if Complete(s) && Length(s) > 0 {
      ParseLonger(s, more);
      var tail := s[Length(s)..];
      ParseSplit(tail, more);
      AfterAfter([Front(s)], Parse(tail).packets, Parse(Parse(tail).rest + more));
    } else {
      AfterNone(Parse(s + more));
    }
  }

  lemma AfterAfter(a: seq<Packet>, b: seq<Packet>, r: Parsed)
    ensures After(a, After(b, r)) == After(a + b, r)
  {
    assert a + (b + r.packets) == (a + b) + r.packets;
  }

  lemma AfterNone(r: Parsed)
    ensures After([], r) == r
  {
    assert [] + r.packets == r.packets;
  }

  /** A reader that parses after every chunk, keeping the unparsed bytes. */
  function Feed(buffer: seq<byte>, chunks: seq<seq<byte>>): Parsed
    decreases |chunks|
  {
    if chunks == [] then Parse(buffer)
    else
      var r := Parse(buffer);
      After(r.packets, Feed(r.rest + chunks[0], chunks[1..]))
  }

  function Join(chunks: seq<seq<byte>>): seq<byte> {
    if chunks == [] then [] else chunks[0] + Join(chunks[1..])
  }

  lemma JoinStep(buffer: seq<byte>, chunks: seq<seq<byte>>)
    requires chunks != []
    ensures (buffer + chunks[0]) + Join(chunks[1..]) == buffer + Join(chunks)
  {
  }

  /** Chunking independence: every way of cutting the stream delivers the one-shot parse. */
  lemma {:induction false} ChunkingIndependent(buffer: seq<byte>, chunks: seq<seq<byte>>)
    ensures Feed(buffer, chunks) == Parse(buffer + Join(chunks))
    decreases |chunks|
  {
    if chunks == [] {
      assert buffer + [] == buffer;
    } else {
      var rest := Parse(buffer).rest;
      ChunkingIndependent(rest + chunks[0], chunks[1..]);
      JoinStep(rest, chunks);
      ParseSplit(buffer, Join(chunks));
    }
  }

  /** The state of the decoding loop after n iterations. */
  function Iterate(s: seq<byte>, n: nat): seq<byte>
    decreases n
  {
    if n == 0 || !Complete(s) then s else Iterate(s[Length(s)..], n - 1)
  }

  lemma {:induction false} StuckForever(s: seq<byte>, n: nat)
    requires Parse(s).stuck
    ensures Complete(Iterate(s, n))
    decreases n
  {
    if n > 0 {
      if Length(s) == 0 { assert s[0..] == s; }
      StuckForever(s[Length(s)..], n - 1);
    }
  }

  lemma {:induction false} LeavesWithin(s: seq<byte>) returns (n: nat)
    requires !Parse(s).stuck
    ensures Iterate(s, n) == Parse(s).rest && !Complete(Iterate(s, n))
    decreases |s|
  {
    if Complete(s) {
      var m := LeavesWithin(s[Length(s)..]);
      n := m + 1;
    } else {
      n := 0;
    }
  }

  /** A zero length stands at the front after k iterations. */
  predicate ZeroAhead(s: seq<byte>, k: nat) { Complete(Iterate(s, k)) && Length(Iterate(s, k)) == 0 }

  lemma {:induction false} StuckAhead(s: seq<byte>) returns (k: nat)
    requires Parse(s).stuck
    ensures ZeroAhead(s, k)
    decreases |s|
  {
    if Length(s) == 0 {
      k := 0;
    } else {
      var m := StuckAhead(s[Length(s)..]);
      k := m + 1;
    }
  }

  lemma {:induction false} AheadStuck(s: seq<byte>, k: nat)
    requires ZeroAhead(s, k)
    ensures Parse(s).stuck
    decreases k
  {
    if k > 0 && Complete(s) && Length(s) > 0 { AheadStuck(s[Length(s)..], k - 1); }
  }

  /** The decoding loop leaves after finitely many iterations exactly when it never meets a zero length; that is the
      parser's flag. */
  lemma LoopLeavesIff(s: seq<byte>)
    ensures (exists n: nat :: !Complete(Iterate(s, n))) <==> !(exists k: nat :: ZeroAhead(s, k))
    ensures Parse(s).stuck <==> exists k: nat :: ZeroAhead(s, k)
  {
    if Parse(s).stuck {
      var k := StuckAhead(s);
      forall n: nat ensures Complete(Iterate(s, n)) { StuckForever(s, n); }
    } else {
      forall k: nat ensures !ZeroAhead(s, k) { if ZeroAhead(s, k) { AheadStuck(s, k); } }
      var n := LeavesWithin(s);
      assert !Complete(Iterate(s, n));
    }
  }

  /** Four zero bytes keep the loop busy for ever. */
  lemma ZeroBytesStick(n: nat)
    ensures Complete(Iterate([0, 0, 0, 0], n)) && Parse([0, 0, 0, 0]).stuck
  {
    StuckForever([0, 0, 0, 0], n);
  }

  /** `Send`: header length and type little-endian, then the payload. */
  function Encode(p: Packet): (s: seq<byte>)
    requires HEADER_SIZE + |p.payload| < 0x1_0000
    ensures |s| == HEADER_SIZE + |p.payload|
  {
    var n := HEADER_SIZE + |p.payload|;
    [n % 0x100, n / 0x100, p.kind % 0x100, p.kind / 0x100] + p.payload
  }

  /** The packet lengths the receive buffer can hold. */
  predicate Fits(p: Packet) { HEADER_SIZE + |p.payload| <= MAX_RECV_BUFFER_SIZE }

  predicate AllFit(ps: seq<Packet>) { forall i | 0 <= i < |ps| :: Fits(ps[i]) }

  function EncodeAll(ps: seq<Packet>): seq<byte>
    requires AllFit(ps)
  {
    if ps == [] then [] else Encode(ps[0]) + EncodeAll(ps[1..])
  }

  /** On the wire: the total length and the type, each low byte first, and then the payload. */
  lemma HeaderLayout(p: Packet)
    requires HEADER_SIZE + |p.payload| < 0x1_0000
    ensures var s := Encode(p);
            var n: int, m: int, k: int, l: int := s[0], s[1], s[2], s[3];
            && |s| == n + 256 * m == 4 + |p.payload| && k + 256 * l == p.kind && s[4..] == p.payload
  {
  }

  lemma FrontOfEncoded(p: Packet, tail: seq<byte>)
    requires HEADER_SIZE + |p.payload| < 0x1_0000
    ensures var s := Encode(p) + tail;
            Complete(s) && Length(s) == |Encode(p)| && Front(s) == p && s[Length(s)..] == tail
  {
    var s := Encode(p) + tail;
    assert s[HEADER_SIZE..|Encode(p)|] == p.payload;
  }

  /** Decoding undoes encoding. */
  lemma {:induction false} RoundTrip(ps: seq<Packet>)
    requires AllFit(ps)
    ensures Parse(EncodeAll(ps)) == Parsed(ps, [], false)
  {
    if ps != [] {
      FrontOfEncoded(ps[0], EncodeAll(ps[1..]));
      RoundTrip(ps[1..]);
    }
  }

  /** After any prefix of a well-formed stream: the packets so far are a prefix, the buffered bytes are the start
      of the next packet, and the next read window is not empty. */
  lemma {:induction false} DecoderProgress(ps: seq<Packet>, received: nat)
    requires AllFit(ps) && received <= |EncodeAll(ps)|
    ensures var r := Parse(EncodeAll(ps)[..received]);
            && !r.stuck && r.packets <= ps && |r.rest| < MAX_RECV_BUFFER_SIZE
            && (received == |EncodeAll(ps)| ==> r.packets == ps && r.rest == [])
            && (|r.packets| < |ps| ==> |r.rest| < |Encode(ps[|r.packets|])| && r.rest <= Encode(ps[|r.packets|]))
  {
    var all := EncodeAll(ps);
    var s := all[..received];
    if ps != [] {
      var first := Encode(ps[0]);
      var tail := EncodeAll(ps[1..]);
      if received < |first| {
        if received >= HEADER_SIZE { FrontOfEncoded(ps[0], tail); assert Length(s) == |first|; }
        assert s == first[..received];
      } else {
        var k := received - |first|;
        assert s == first + tail[..k];
        FrontOfEncoded(ps[0], tail[..k]);
        DecoderProgress(ps[1..], k);
      }
    }
  }

  /** One more chunk of a well-formed stream. */
  lemma NextChunk(ps: seq<Packet>, k: nat, n: nat)
    requires AllFit(ps) && k + n <= |EncodeAll(ps)|
    ensures var s := EncodeAll(ps); var r := Parse(s[..k]); var q := Parse(r.rest + s[k..k + n]);
            && !q.stuck && Parse(s[..k + n]).packets == r.packets + q.packets && Parse(s[..k + n]).rest == q.rest
  {
    hide Parse, EncodeAll, Encode;
    var s := EncodeAll(ps);
    assert s[..k] + s[k..k + n] == s[..k + n];
    ParseSplit(s[..k], s[k..k + n]);
    DecoderProgress(ps, k + n);
  }

  /** The read window of a full-size buffer closes exactly when a length above the buffer size heads a full buffer. */
  lemma WindowClosesIff(s: seq<byte>)
    requires |s| <= MAX_RECV_BUFFER_SIZE && !Parse(s).stuck
    ensures |Parse(s).rest| == MAX_RECV_BUFFER_SIZE <==> |s| == MAX_RECV_BUFFER_SIZE && Length(s) > MAX_RECV_BUFFER_SIZE
  {
    if Complete(s) { assert |Parse(s[Length(s)..]).rest| <= |s| - Length(s); }
  }

  /** A full buffer headed by the length 8193: nothing is delivered and no room is left to read into. */
  lemma OversizedHeadStops()
    ensures var s := [1, 32, 0, 0] + Repeat<byte>(0, MAX_RECV_BUFFER_SIZE - HEADER_SIZE);
            Length(s) == MAX_RECV_BUFFER_SIZE + 1 && Parse(s) == Parsed([], s, false) && |s| == MAX_RECV_BUFFER_SIZE
  {
    var s := [1, 32, 0, 0] + Repeat<byte>(0, MAX_RECV_BUFFER_SIZE - HEADER_SIZE);
    assert s[0] == 1 && s[1] == 32;
    NothingMore(s);
  }

  /** The receiving and sending side of the server's session (GameServer/Session.cpp). */
  class ServerStream {
    const recvBuffer: array<byte>
    var recvSize: nat
    var delivered: seq<Packet> // the packets handed to packetCallback_, in order

    ghost predicate Valid()
      reads this
    {
      recvBuffer.Length == MAX_RECV_BUFFER_SIZE && recvSize <= MAX_RECV_BUFFER_SIZE
    }

    ghost function Buffered(): seq<byte>
      reads this, recvBuffer
      requires Valid()
    {
      recvBuffer[..recvSize]
    }

    constructor ()
      ensures Valid() && fresh(recvBuffer) && Buffered() == [] && delivered == []
    {
      recvBuffer := new byte[MAX_RECV_BUFFER_SIZE];
      recvSize, delivered := 0, [];
    }

    /** A completed read: the socket has put `data` into the window behind the buffered bytes. */
    method OnRead(data: seq<byte>)
      requires Valid() && |data| <= MAX_RECV_BUFFER_SIZE - recvSize
      requires !Parse(Buffered() + data).stuck
      modifies this, recvBuffer
      ensures Valid()
      ensures Buffered() == Parse(old(Buffered()) + data).rest
      ensures delivered == old(delivered) + Parse(old(Buffered()) + data).packets
    {
      Fill(data);
      ProcessBuffer();
    }

    /** The re-armed read: whatever non-empty chunks the socket cuts a well-formed stream into, every packet is
        delivered, once and in order, and the loop gets to the stream's end. */
    method DoRead(stream: seq<byte>, ghost ps: seq<Packet>)
      requires Valid() && Buffered() == []
      requires AllFit(ps) && stream == EncodeAll(ps)
      modifies this, recvBuffer
      ensures Valid() && Buffered() == [] && delivered == old(delivered) + ps
    {
      hide Parse, EncodeAll, Encode, Complete;
      NothingReceived(stream);
      var k := 0;
      while k < |stream|
        invariant Valid() && 0 <= k <= |stream|
        invariant Buffered() == Parse(stream[..k]).rest
        invariant delivered == old(delivered) + Parse(stream[..k]).packets
      {
        DecoderProgress(ps, k);
        var n: nat :| 1 <= n <= MAX_RECV_BUFFER_SIZE - recvSize && k + n <= |stream|;
        NextChunk(ps, k, n);
        OnRead(stream[k..k + n]);
        k := k + n;
      }
      assert stream[..k] == stream;
      RoundTrip(ps);
    }

    /** What the socket does with the window it was given. */
    method Fill(data: seq<byte>)
      requires Valid() && |data| <= MAX_RECV_BUFFER_SIZE - recvSize
      modifies this, recvBuffer
      ensures Valid() && Buffered() == old(Buffered()) + data && delivered == old(delivered)
    {
      var i := 0;
      while i < |data|
        invariant 0 <= i <= |data|
        invariant recvSize == old(recvSize) && delivered == old(delivered)
        invariant recvBuffer[..recvSize] == old(Buffered())
        invariant forall k | 0 <= k < i :: recvBuffer[recvSize + k] == data[k]
      {
        recvBuffer[recvSize + i] := data[i];
        i := i + 1;
      }
      recvSize := recvSize + |data|;
    }

    method ProcessBuffer()
      requires Valid() && !Parse(Buffered()).stuck
      modifies this, recvBuffer
      ensures Valid()
      ensures Buffered() == Parse(old(Buffered())).rest
      ensures delivered == old(delivered) + Parse(old(Buffered())).packets
    {
      hide Parse, Front;
      ghost var all := Parse(Buffered());
      while recvSize >= HEADER_SIZE
        invariant Valid()
        invariant delivered + Parse(Buffered()).packets == old(delivered) + all.packets
        invariant Parse(Buffered()).rest == all.rest && !Parse(Buffered()).stuck
        decreases recvSize
      {
        var length := Word(recvBuffer[0], recvBuffer[1]);
        assert length == Length(Buffered());
        if length > recvSize {
          break;
        }
        ParseStep(Buffered(), delivered);
        DeliverFront();
      }
      NothingMore(Buffered());
    }

    /** The body of the loop: hand over the packet at the front, then close the gap. */
    method DeliverFront()
      requires Valid() && Complete(Buffered())
      modifies this, recvBuffer
      ensures Valid() && recvSize == old(recvSize) - old(Length(Buffered()))
      ensures Buffered() == old(Buffered()[Length(Buffered())..])
      ensures delivered == old(delivered) + [old(Front(Buffered()))]
    {
      ghost var now := Buffered();
      var length := Word(recvBuffer[0], recvBuffer[1]);
      var payload: seq<byte> := [];
      if length >= HEADER_SIZE {
        payload := recvBuffer[HEADER_SIZE..length];
        assert forall k | 0 <= k < |payload| :: payload[k] == now[HEADER_SIZE..length][k];
        assert payload == now[HEADER_SIZE..length];
      }
      delivered := delivered + [Packet(Word(recvBuffer[2], recvBuffer[3]), payload)];
      recvSize := recvSize - length;
      if recvSize > 0 {
        MoveDown(length, recvSize);
      }
      assert Buffered() == now[length..];
    }

    /** The overlapping `memmove` of n bytes to the buffer's start. */
    method MoveDown(from: nat, n: nat)
      requires Valid() && from + n <= recvBuffer.Length
      modifies recvBuffer
      ensures recvBuffer[..n] == old(recvBuffer[from..from + n])
    {
      var i := 0;
      while i < n
        invariant 0 <= i <= n
        invariant forall k | 0 <= k < i :: recvBuffer[k] == old(recvBuffer[from + k])
        invariant forall k | i <= k < recvBuffer.Length :: recvBuffer[k] == old(recvBuffer[k])
      {
        recvBuffer[i] := recvBuffer[from + i];
        i := i + 1;
      }
    }

    /** `Send` fills one heap buffer: the header, then a copy of the payload. */
    method EncodeToBuffer(p: Packet) returns (buffer: array<byte>)
      requires HEADER_SIZE + |p.payload| < 0x1_0000
      ensures fresh(buffer) && buffer[..] == Encode(p)
    {
      var length := HEADER_SIZE + |p.payload|;
      buffer := new byte[length];
      buffer[0], buffer[1] := length % 0x100, length / 0x100;
      buffer[2], buffer[3] := p.kind % 0x100, p.kind / 0x100;
      var i := 0;
      while i < |p.payload|
        invariant 0 <= i <= |p.payload|
        invariant buffer[..HEADER_SIZE + i] == Encode(p)[..HEADER_SIZE + i]
      {
        buffer[HEADER_SIZE + i] := p.payload[i];
        i := i + 1;
      }
    }
  }

  /** The packets a client has a handler for, in order. */
  function Handled(ps: seq<Packet>, handlers: set<uint16>): seq<Packet> {
    if ps == [] then []
    else (if ps[0].kind in handlers then [ps[0]] else []) + Handled(ps[1..], handlers)
  }

  lemma HandledFirst(p: Packet, rest: seq<Packet>, handlers: set<uint16>)
    ensures Handled([p] + rest, handlers) == (if p.kind in handlers then [p] else []) + Handled(rest, handlers)
  {
    assert ([p] + rest)[1..] == rest;
  }

  lemma {:induction false} HandledJoin(a: seq<Packet>, b: seq<Packet>, handlers: set<uint16>)
    ensures Handled(a + b, handlers) == Handled(a, handlers) + Handled(b, handlers)
    decreases |a|
  {
    if a == [] {
      assert a + b == b;
    } else {
      HandledJoin(a[1..], b, handlers);
      hide Handled;
      HandledFirst(a[0], a[1..] + b, handlers);
      HandledFirst(a[0], a[1..], handlers);
      Assoc([a[0]], a[1..], b);
      assert [a[0]] + a[1..] == a;
      Assoc(if a[0].kind in handlers then [a[0]] else [], Handled(a[1..], handlers), Handled(b, handlers));
    }
  }

  /** The same turn when packets without a handler are skipped. */
  lemma HandledStep(s: seq<byte>, done: seq<Packet>, handlers: set<uint16>)
    requires Complete(s) && !Parse(s).stuck
    ensures Length(s) > 0
    ensures var r := Parse(s[Length(s)..]); var mine := if Kind(s) in handlers then [Front(s)] else [];
            && r.rest == Parse(s).rest && !r.stuck
            && (done + mine) + Handled(r.packets, handlers) == done + Handled(Parse(s).packets, handlers)
  {
    ParseFirst(s);
    hide Parse, Complete, Length, Handled;
    var q := Parse(s[Length(s)..]).packets;
    var mine := if Kind(s) in handlers then [Front(s)] else [];
    HandledFirst(Front(s), q, handlers);
    Assoc(done, mine, Handled(q, handlers));
  }

  /** The client's side of the same stream (GameClient/TcpClient.cpp). */
  class ClientStream {
    var recvBuffer: seq<byte>
    var sent: seq<byte>         // bytes passed to send()
    const handlers: set<uint16>
    var handled: seq<Packet>    // the packets passed to a registered handler, in order

    constructor (handlers: set<uint16>)
      ensures recvBuffer == [] && sent == [] && handled == [] && this.handlers == handlers
    {
      this.handlers := handlers;
      recvBuffer, sent, handled := [], [], [];
    }

    /** One successful recv: append the chunk, then decode. */
    method OnReceive(chunk: seq<byte>)
      requires !Parse(recvBuffer + chunk).stuck
      modifies this
      ensures recvBuffer == Parse(old(recvBuffer) + chunk).rest && sent == old(sent)
      ensures handled == old(handled) + Handled(Parse(old(recvBuffer) + chunk).packets, handlers)
    {
      recvBuffer := recvBuffer + chunk;
      ProcessPackets();
    }

    /** The receive thread: recv returns any 1..4096 bytes at a time. */
    method RecvLoop(stream: seq<byte>, ghost ps: seq<Packet>)
      requires recvBuffer == []
      requires AllFit(ps) && stream == EncodeAll(ps)
      modifies this
      ensures recvBuffer == [] && sent == old(sent) && handled == old(handled) + Handled(ps, handlers)
    {
      hide Parse, EncodeAll, Encode, Complete;
      NothingReceived(stream);
      var k := 0;
      while k < |stream|
        invariant 0 <= k <= |stream| && sent == old(sent)
        invariant recvBuffer == Parse(stream[..k]).rest
        invariant handled == old(handled) + Handled(Parse(stream[..k]).packets, handlers)
      {
        var n: nat :| 1 <= n <= MAX_PACKET_SIZE && k + n <= |stream|;
        NextChunk(ps, k, n);
        HandledJoin(Parse(stream[..k]).packets, Parse(Parse(stream[..k]).rest + stream[k..k + n]).packets, handlers);
        OnReceive(stream[k..k + n]);
        k := k + n;
      }
      assert stream[..k] == stream;
      RoundTrip(ps);
    }

    method ProcessPackets()
      requires !Parse(recvBuffer).stuck
      modifies this
      ensures recvBuffer == Parse(old(recvBuffer)).rest && sent == old(sent)
      ensures handled == old(handled) + Handled(Parse(old(recvBuffer)).packets, handlers)
    {
      ghost var all := Parse(recvBuffer);
      while |recvBuffer| >= HEADER_SIZE
        invariant handled + Handled(Parse(recvBuffer).packets, handlers) == old(handled)
                  + Handled(all.packets, handlers)
        invariant Parse(recvBuffer).rest == all.rest && !Parse(recvBuffer).stuck && sent == old(sent)
        decreases |recvBuffer|
      {
        var length := Word(recvBuffer[0], recvBuffer[1]);
        if |recvBuffer| < length {
          break;
        }
        HandledStep(recvBuffer, handled, handlers);
        TakeFront();
      }
    }

    /** The body of the loop: call the handler if there is one, then erase the packet. */
    method TakeFront()
      requires Complete(recvBuffer)
      modifies this
      ensures recvBuffer == old(recvBuffer[Length(recvBuffer)..]) && sent == old(sent)
      ensures handled == old(handled) + if old(Kind(recvBuffer)) in handlers then [old(Front(recvBuffer))] else []
    {
      var length, kind := Word(recvBuffer[0], recvBuffer[1]), Word(recvBuffer[2], recvBuffer[3]);
      if kind in handlers {
        handled := handled + [Packet(kind, if length >= HEADER_SIZE then recvBuffer[HEADER_SIZE..length] else [])];
      }
      recvBuffer := recvBuffer[length..];
    }

    /** Two send() calls: the header, then the payload if there is one. */
    method Send(p: Packet)
      requires HEADER_SIZE + |p.payload| < 0x1_0000
      modifies this
      ensures sent == old(sent) + Encode(p)
      ensures recvBuffer == old(recvBuffer) && handled == old(handled)
    {
      var n := HEADER_SIZE + |p.payload|;
      sent := sent + [n % 0x100, n / 0x100, p.kind % 0x100, p.kind / 0x100];
      if |p.payload| > 0 {
        sent := sent + p.payload;
      }
    }
  }
}
