/**
 The socket loops of include/chat/protocol.h over an adversarial stream socket, proved against the
 codec of module Framing.
 */
module Sockets {
  import opened LengthField
  import opened Framing

  /** A connected stream socket. `sent` is every byte accepted from this end so far; `incoming` is every
      byte that will still arrive before end of stream or error. Once a send has failed, all later
      sends fail. `taken` has what each ::send took, 0 for one that failed. */
  class Socket {
    var sent: seq<byte>
    var broken: bool
    var incoming: seq<byte>
    var taken: seq<nat>

    constructor (arriving: seq<byte>)
      ensures sent == [] && !broken && incoming == arriving && taken == []
    {
      sent, broken, incoming, taken := [], false, arriving, [];
    }

    // ::send: accepts any number of bytes from 1 to len, or fails for good.
    method Send(buf: array<byte>, at: nat, len: nat) returns (n: int)
      requires 0 < len && at + len <= buf.Length
      modifies this`sent, this`broken, this`taken
      ensures n <= len && taken == old(taken) + [if n > 0 then n else 0]
      ensures n > 0 ==> !old(broken) && !broken && sent == old(sent) + buf[at..at + n]
      ensures n <= 0 ==> broken && sent == old(sent)
    {
      n := *;
      if n > len { n := len; }
      if broken || n <= 0 {
        broken, taken := true, taken + [0];
        return -1;
      }
      taken := taken + [n];
      sent := sent + buf[at..at + n];
    }

    // ::recv: delivers any number of bytes from 1 to len, or 0 once nothing more arrives.
    method Recv(buf: array<byte>, at: nat, len: nat) returns (n: int)
      requires 0 < len && at + len <= buf.Length
      modifies this`incoming, buf
      ensures n <= len
      ensures n > 0 <==> old(incoming) != []
      ensures n > 0 ==> n <= |old(incoming)| && incoming == old(incoming)[n..]
      ensures n > 0 ==> buf[..] == old(buf[..at]) + old(incoming)[..n] + old(buf[at + n..])
      ensures n <= 0 ==> incoming == old(incoming) && buf[..] == old(buf[..])
    {
      if incoming == [] { return 0; }
      n := *;
      if n > len { n := len; }
      if n > |incoming| { n := |incoming|; }
      if n <= 0 { n := 1; }
      ghost var was := buf[..];
      forall i | 0 <= i < n {
        buf[at + i] := incoming[i];
      }
      assert buf[..] == was[..at] + incoming[..n] + was[at + n..];
      incoming := incoming[n..];
    }
  }

  // There were calls of ::send, and only one exactly when the first of them took `size` bytes.
  predicate FirstDecides(before: seq<nat>, after: seq<nat>, size: nat) {
    before < after && (|after| == |before| + 1 <==> after[|before|] == size)
  }

  // True exactly when the whole buffer went out; otherwise a proper prefix of it did. One ::send is enough exactly
  // when the first takes everything.
  method WriteExact(socket: Socket, buf: array<byte>) returns (ok: bool)
    modifies socket`sent, socket`broken, socket`taken
    ensures ok ==> socket.sent == old(socket.sent) + buf[..] && socket.broken == old(socket.broken)
    ensures !ok ==> socket.broken
    ensures !ok ==> old(socket.sent) <= socket.sent < old(socket.sent) + buf[..]
    ensures old(socket.broken) ==> socket.sent == old(socket.sent)
    ensures old(socket.taken) <= socket.taken
    ensures ok && buf.Length > 0 ==> FirstDecides(old(socket.taken), socket.taken, buf.Length)
  {
    var at, remaining := 0, buf.Length;
    while remaining > 0
      invariant 0 <= at && 0 <= remaining && at + remaining == buf.Length
      invariant socket.sent == old(socket.sent) + buf[..at]
      invariant socket.broken == old(socket.broken)
      invariant old(socket.broken) ==> at == 0
      invariant at == 0 ==> socket.taken == old(socket.taken)
      invariant at > 0 ==> FirstDecides(old(socket.taken), socket.taken, at)
      invariant at > 0 ==> socket.taken[|old(socket.taken)|] <= at
    {
      var n := socket.Send(buf, at, remaining);
      if n <= 0 {
        assert buf[..at] < buf[..];
        return false;
      }
      assert buf[..at] + buf[at..at + n] == buf[..at + n];
      at, remaining := at + n, remaining - n;
    }
    assert buf[..at] == buf[..];
    return true;
  }

  // True exactly when len bytes arrived, which then fill the buffer; otherwise the stream is used up.
  method ReadExact(socket: Socket, buf: array<byte>) returns (ok: bool)
    modifies socket`incoming, buf
    ensures ok <==> |old(socket.incoming)| >= buf.Length
    ensures ok ==> buf[..] == old(socket.incoming)[..buf.Length]
    ensures ok ==> socket.incoming == old(socket.incoming)[buf.Length..]
    ensures !ok ==> socket.incoming == []
  {
    var at, remaining := 0, buf.Length;
    while remaining > 0
      invariant 0 <= at <= |old(socket.incoming)| && 0 <= remaining && at + remaining == buf.Length
      invariant socket.incoming == old(socket.incoming)[at..]
      invariant buf[..at] == old(socket.incoming)[..at]
    {
      var n := socket.Recv(buf, at, remaining);
      if n <= 0 { return false; }
      assert buf[..at + n] == old(socket.incoming)[..at + n];
      at, remaining := at + n, remaining - n;
    }
    return true;
  }

  // The header of a message of the given size, and the size its length field announces.
  method FillHeader(kind: byte, size: nat) returns (header: array<byte>, announced: nat)
    ensures fresh(header) && header[..] == [kind] + Digits(size)
    ensures announced == size % TWO_32
  {
    header := new byte[HEADER_SIZE];
    header[0] := kind;
    var len: bv32 := Cast(size);
    var bytes := Numbers(Split(len));
    header[1], header[2], header[3], header[4] := bytes[0], bytes[1], bytes[2], bytes[3];
    SplitCast(size);
    announced := len as int;
  }

  // Header, then payload when there is one; `serialized` is None when the message does not serialize, and then
  // nothing is written. Another failure cuts the frame short. A frame goes out in one ::send exactly when it has no
  // payload and that call takes the whole header.
  method SendMessage(socket: Socket, kind: byte, serialized: Option<seq<byte>>) returns (ok: bool)
    modifies socket`sent, socket`broken, socket`taken
    ensures serialized.None? ==>
              && !ok && socket.sent == old(socket.sent) && socket.broken == old(socket.broken)
              && socket.taken == old(socket.taken)
    ensures ok ==>
              && socket.sent == old(socket.sent) + Encode(Message(kind, serialized.value))
              && socket.broken == old(socket.broken)
              && old(socket.taken) < socket.taken
              && (|socket.taken| == |old(socket.taken)| + 1 <==>
                    |serialized.value| % TWO_32 == 0 && socket.taken[|old(socket.taken)|] == HEADER_SIZE)
    ensures !ok && serialized.Some? ==>
              && socket.broken
              && old(socket.sent) <= socket.sent < old(socket.sent) + Encode(Message(kind, serialized.value))
    ensures old(socket.broken) ==> socket.sent == old(socket.sent) && !ok
  {
    if serialized.None? { return false; }
    var m := Message(kind, serialized.value);
    var header, len := FillHeader(m.kind, |m.payload|);
    ghost var head := header[..];
    assert Encode(m) == head + m.payload[..len];
    ok := WriteExact(socket, header);
    if !ok {
      assert old(socket.sent) + head <= old(socket.sent) + Encode(m);
      return;
    }
    if len > 0 {
      var data := new byte[len](i requires 0 <= i < len => m.payload[i]);
      assert data[..] == m.payload[..len];
      ok := WriteExact(socket, data);
      assert old(socket.sent) + head + data[..] == old(socket.sent) + Encode(m);
    }
  }

  // The payload length a header announces.
  method ReadSize(header: array<byte>) returns (size: nat)
    requires header.Length == HEADER_SIZE
    ensures size == BigEndian(header[1..HEADER_SIZE])
  {
    var bytes := header[1..HEADER_SIZE];
    size := Join(Octets(bytes)) as int;
    ValueJoin(bytes);
  }

  // True exactly when the stream holds a whole acceptable frame; then that message is returned.
  method RecvMessage(socket: Socket) returns (ok: bool, m: Message)
    modifies socket`incoming
    ensures ok <==> Next(old(socket.incoming)).Some?
    ensures ok ==> Next(old(socket.incoming)) == Some((m, socket.incoming))
  {
    m := Message(0, []);
    ghost var stream := socket.incoming;
    var header := new byte[HEADER_SIZE];
    var got := ReadExact(socket, header);
    if !got { return false, m; }
    var kind := header[0];
    assert header[..] == stream[..HEADER_SIZE];
    assert header[1..HEADER_SIZE] == stream[1..HEADER_SIZE];
    var size := ReadSize(header);
    if size > MAX_PAYLOAD { return false, m; }
    var payload := new byte[size];
    if size > 0 {
      got := ReadExact(socket, payload);
      if !got { return false, m; }
    }
    assert payload[..] == stream[HEADER_SIZE..][..size] == stream[HEADER_SIZE..HEADER_SIZE + size];
    assert socket.incoming == stream[HEADER_SIZE + size..];
    return true, Message(kind, payload[..]);
  }

  // Sending a list of messages, ignoring the results as the server does: the bytes that went out are
  // the encoded list cut at some byte, and the whole of it unless a send failed.
  method SendAll(socket: Socket, ms: seq<Message>)
    modifies socket`sent, socket`broken, socket`taken
    requires !socket.broken
    ensures old(socket.sent) <= socket.sent <= old(socket.sent) + EncodeAll(ms)
    ensures !socket.broken ==> socket.sent == old(socket.sent) + EncodeAll(ms)
  {
    for i := 0 to |ms|
      invariant old(socket.sent) <= socket.sent <= old(socket.sent) + EncodeAll(ms[..i])
      invariant !socket.broken ==> socket.sent == old(socket.sent) + EncodeAll(ms[..i])
    {
      var ok := SendMessage(socket, ms[i].kind, Some(ms[i].payload));
      EncodeAllSnoc(ms, i);
      assert old(socket.sent) + EncodeAll(ms[..i]) + Encode(ms[i]) == old(socket.sent) + EncodeAll(ms[..i + 1]);
    }
    assert ms[..|ms|] == ms;
  }

  lemma EncodeAllSnoc(ms: seq<Message>, i: nat)
    requires i < |ms|
    ensures EncodeAll(ms[..i + 1]) == EncodeAll(ms[..i]) + Encode(ms[i])
  {
    assert ms[..i + 1] == ms[..i] + [ms[i]];
    EncodeAllAppend(ms[..i], [ms[i]]);
    assert EncodeAll([ms[i]]) == Encode(ms[i]) + EncodeAll([]);
  }

  // The read loop of a server handler or of the client's network thread.
  method ReceiveAll(socket: Socket) returns (ms: seq<Message>)
    modifies socket`incoming
    ensures ms == Parse(old(socket.incoming))
  {
    ms := [];
    while true
      invariant ms + Parse(socket.incoming) == Parse(old(socket.incoming))
      decreases |socket.incoming|
    {
      var ok, m := RecvMessage(socket);
      if !ok { return; }
      ms := ms + [m];
    }
  }

  // The two ends together: whatever the write schedule, the point where the stream is cut and the read
  // schedule, the receiver gets exactly the messages that arrived whole, in order, and then false. With no
  // failed send and no cut that is all of them.
  method Transfer(ms: seq<Message>, cut: nat) returns (received: seq<Message>, arrived: nat, failed: bool)
    requires AllFit(ms)
    ensures arrived <= |EncodeAll(ms)| && received == ms[..WholeBefore(ms, arrived)]
    ensures !failed ==> arrived == if cut < |EncodeAll(ms)| then cut else |EncodeAll(ms)|
    ensures !failed && cut >= |EncodeAll(ms)| ==> received == ms
  {
    var sender := new Socket([]);
    SendAll(sender, ms);
    failed := sender.broken;
    arrived := if cut < |sender.sent| then cut else |sender.sent|;
    var receiver := new Socket(sender.sent[..arrived]);
    assert sender.sent[..arrived] == EncodeAll(ms)[..arrived];
    ParsePrefix(ms, arrived);
    received := ReceiveAll(receiver);
    if arrived == |EncodeAll(ms)| {
      assert EncodeAll(ms)[..arrived] + [] == EncodeAll(ms) + [];
      ParseEncodeAll(ms, []);
      assert EncodeAll(ms) + [] == EncodeAll(ms)[..arrived];
    }
  }
}
