/**
 The length field of the frame header (include/chat/protocol.h): the shift-and-mask split and the
 shift-and-or reassembly of a uint32 on bit-vectors, tied to base-256 digits of the number.
 */
module LengthField {

  type byte = b: int | 0 <= b < 0x100

  const TWO_32 := 0x1_0000_0000

  // The big-endian base-256 digits of the low 32 bits of a size.
  function Digits(n: nat): (h: seq<byte>)
    ensures |h| == 4
  {
    [n / 0x100_0000 % 0x100, n / 0x1_0000 % 0x100, n / 0x100 % 0x100, n % 0x100]
  }

  // The number four big-endian bytes stand for.
  function BigEndian(h: seq<byte>): (n: nat)
    requires |h| == 4
    ensures n < TWO_32
  {
    (h[0] as int) * 0x100_0000 + (h[1] as int) * 0x1_0000 + (h[2] as int) * 0x100 + (h[3] as int)
  }

  lemma Base256(n: nat)
    ensures (n / 0x100_0000 % 0x100) * 0x100_0000 + (n / 0x1_0000 % 0x100) * 0x1_0000
            + (n / 0x100 % 0x100) * 0x100 + n % 0x100 == n % TWO_32
  {
    var a := n / 0x100;
    var b := a / 0x100;
    var c := b / 0x100;
    assert b == n / 0x1_0000 && c == n / 0x100_0000;
    assert n == 0x100_0000 * c + 0x1_0000 * (b % 0x100) + 0x100 * (a % 0x100) + n % 0x100;
    assert c == 0x100 * (c / 0x100) + c % 0x100;
    assert n % TWO_32 == n - TWO_32 * (c / 0x100);
  }

  // The digits of a size denote it modulo 2^32.
  lemma BigEndianDigits(n: nat)
    ensures BigEndian(Digits(n)) == n % TWO_32
  {
    Base256(n);
  }

  lemma DivideStep(q: nat, r: nat)
    requires r < 0x100
    ensures (q * 0x100 + r) / 0x100 == q && (q * 0x100 + r) % 0x100 == r
  {}

  lemma DivideTwice(n: nat)
    ensures n / 0x1_0000 == n / 0x100 / 0x100 && n / 0x100_0000 == n / 0x100 / 0x100 / 0x100
  {}

  lemma Base256Digits(a: nat, b: nat, c: nat, d: nat)
    requires a < 0x100 && b < 0x100 && c < 0x100 && d < 0x100
    ensures var n := a * 0x100_0000 + b * 0x1_0000 + c * 0x100 + d;
            n / 0x100_0000 % 0x100 == a && n / 0x1_0000 % 0x100 == b && n / 0x100 % 0x100 == c && n % 0x100 == d
  {
    var n := a * 0x100_0000 + b * 0x1_0000 + c * 0x100 + d;
    DivideTwice(n);
    DivideStep(a * 0x1_0000 + b * 0x100 + c, d);
    DivideStep(a * 0x100 + b, c);
    DivideStep(a, b);
  }

  lemma DigitsBigEndian(h: seq<byte>)
    requires |h| == 4
    ensures Digits(BigEndian(h)) == h
  {
    Base256Digits(h[0], h[1], h[2], h[3]);
  }

  // ---------- the same on uint32 and uint8 ----------

  // header[1..4] of send_message
  function Split(len: bv32): (h: seq<bv8>)
    ensures |h| == 4
  {
    [((len >> 24) & 0xFF) as bv8, ((len >> 16) & 0xFF) as bv8, ((len >> 8) & 0xFF) as bv8, (len & 0xFF) as bv8]
  }

  // len of recv_message
  function Join(h: seq<bv8>): bv32
    requires |h| == 4
  {
    ((h[0] as bv32) << 24) | ((h[1] as bv32) << 16) | ((h[2] as bv32) << 8) | (h[3] as bv32)
  }

  lemma JoinSplit(len: bv32)
    ensures Join(Split(len)) == len
  {}

  lemma SplitJoinBytes(h0: bv8, h1: bv8, h2: bv8, h3: bv8)
    ensures var w: bv32 := ((h0 as bv32) << 24) | ((h1 as bv32) << 16) | ((h2 as bv32) << 8) | (h3 as bv32);
            && ((w >> 24) & 0xFF) as bv8 == h0 && ((w >> 16) & 0xFF) as bv8 == h1
            && ((w >> 8) & 0xFF) as bv8 == h2 && (w & 0xFF) as bv8 == h3
  {}

  lemma SplitJoin(h: seq<bv8>)
    requires |h| == 4
    ensures Split(Join(h)) == h
  {
    SplitJoinBytes(h[0], h[1], h[2], h[3]);
  }

  // ---------- from uint32 and uint8 to numbers ----------

  function Numbers(h: seq<bv8>): (s: seq<byte>)
    requires |h| == 4
    ensures |s| == 4
  {
    [h[0] as int, h[1] as int, h[2] as int, h[3] as int]
  }

  function Octets(s: seq<byte>): (h: seq<bv8>)
    requires |s| == 4
    ensures |h| == 4
  {
    [s[0] as bv8, s[1] as bv8, s[2] as bv8, s[3] as bv8]
  }

  // static_cast<uint32_t> of a size
  function Cast(n: nat): bv32 {
    (n % TWO_32) as bv32
  }

  lemma NibbleNumber(n: int)
    requires 0 <= n < 0x10
    ensures (n as bv4) as int == n
  {}

  lemma NibblesNumber(h: bv4, l: bv4)
    ensures (((h as bv8) << 4) | (l as bv8)) as int == (h as int) * 0x10 + l as int
  {}

  lemma OctetBack(b: bv8)
    ensures (b as int) as bv8 == b
  {}

  lemma OctetNumber(n: int)
    requires 0 <= n < 0x100
    ensures (n as bv8) as int == n
  {
    var h, l := (n / 0x10) as bv4, (n % 0x10) as bv4;
    NibbleNumber(n / 0x10);
    NibbleNumber(n % 0x10);
    NibblesNumber(h, l);
    OctetBack(((h as bv8) << 4) | (l as bv8));
  }

  lemma NumbersOctets(s: seq<byte>)
    requires |s| == 4
    ensures Numbers(Octets(s)) == s
  {
    OctetNumber(s[0]);
    OctetNumber(s[1]);
    OctetNumber(s[2]);
    OctetNumber(s[3]);
  }

  lemma JoinBytes(h0: bv8, h1: bv8, h2: bv8, h3: bv8)
    ensures (((h0 as bv32) << 24) | ((h1 as bv32) << 16) | ((h2 as bv32) << 8) | (h3 as bv32)) as int
            == (h0 as int) * 0x100_0000 + (h1 as int) * 0x1_0000 + (h2 as int) * 0x100 + h3 as int
  {}

  lemma JoinNumbers(h0: bv8, h1: bv8, h2: bv8, h3: bv8)
    ensures (((h0 as bv32) << 24) | ((h1 as bv32) << 16) | ((h2 as bv32) << 8) | (h3 as bv32)) as int
            == BigEndian([h0 as int, h1 as int, h2 as int, h3 as int])
  {
    JoinBytes(h0, h1, h2, h3);
  }

  lemma JoinValue(h: seq<bv8>)
    requires |h| == 4
    ensures Join(h) as int == BigEndian(Numbers(h))
  {
    JoinNumbers(h[0], h[1], h[2], h[3]);
  }

  // Shifting and or-ing four bytes gives their big-endian number.
  lemma ValueJoin(s: seq<byte>)
    requires |s| == 4
    ensures Join(Octets(s)) as int == BigEndian(s)
  {
    JoinValue(Octets(s));
    NumbersOctets(s);
  }

  // Shifting and masking a uint32 gives the base-256 digits of its number.
  lemma SplitDigits(w: bv32)
    ensures Numbers(Split(w)) == Digits(w as int)
  {
    JoinSplit(w);
    JoinValue(Split(w));
    DigitsBigEndian(Numbers(Split(w)));
  }

  lemma NumberBack(w: bv32)
    ensures (w as int) as bv32 == w
  {}

  lemma CastValue(n: nat)
    ensures Cast(n) as int == n % TWO_32
  {
    var w := Join(Octets(Digits(n)));
    ValueJoin(Digits(n));
    BigEndianDigits(n);
    NumberBack(w);
  }

  lemma DigitsCast(n: nat)
    ensures Digits(n % TWO_32) == Digits(n)
  {
    BigEndianDigits(n);
    DigitsBigEndian(Digits(n));
  }

  // The bytes of the cast size are the digits of the size, and its number is the size modulo 2^32.
  lemma SplitCast(n: nat)
    ensures Numbers(Split(Cast(n))) == Digits(n)
    ensures Cast(n) as int == n % TWO_32
  {
    CastValue(n);
    SplitDigits(Cast(n));
    DigitsCast(n);
  }
}

/**
 The wire format of include/chat/protocol.h as a pure codec: a five-byte header (message type,
 then the payload length, big-endian) followed by the payload.
 */
module Framing {
  import opened LengthField

  const HEADER_SIZE := 5
  const MAX_PAYLOAD := 16 * 1024 * 1024

  datatype Option<+T> = None | Some(value: T)

  datatype Message = Message(kind: byte, payload: seq<byte>)

  // ---------- frames ----------

  // The bytes send_message writes: only as much payload as the 32-bit length announces.
  function Encode(m: Message): (bytes: seq<byte>)
    ensures |bytes| >= HEADER_SIZE
  {
    [m.kind] + Digits(|m.payload|) + m.payload[..|m.payload| % TWO_32]
  }

  function EncodeAll(ms: seq<Message>): seq<byte> {
    if ms == [] then [] else Encode(ms[0]) + EncodeAll(ms[1..])
  }

  // What one recv_message makes of the bytes that will ever arrive: a message and the bytes left,
  // or None when the stream ends early or the length is over the limit.
  function Next(stream: seq<byte>): (r: Option<(Message, seq<byte>)>)
    ensures r.Some? ==> |r.value.1| < |stream|
  {
    if |stream| < HEADER_SIZE then None
    else
      var len := BigEndian(stream[1..HEADER_SIZE]);
      if len > MAX_PAYLOAD || |stream| < HEADER_SIZE + len then None
      else Some((Message(stream[0], stream[HEADER_SIZE..HEADER_SIZE + len]), stream[HEADER_SIZE + len..]))
  }

  // What repeated recv_message calls return before the first false.
  function Parse(stream: seq<byte>): seq<Message>
    decreases |stream|
  {
    match Next(stream)
    case None => []
    case Some((m, rest)) => [m] + Parse(rest)
  }

  predicate Fits(m: Message) {
    |m.payload| <= MAX_PAYLOAD
  }

  predicate AllFit(ms: seq<Message>) {
    forall i | 0 <= i < |ms| :: Fits(ms[i])
  }

  // What a frame carries: as much of the payload as its length field announces.
  function Arriving(m: Message): Message {
    Message(m.kind, m.payload[..|m.payload| % TWO_32])
  }

  // The announced length is within the receiver's limit.
  predicate Readable(m: Message) {
    |m.payload| % TWO_32 <= MAX_PAYLOAD
  }

  // Below 2^32 bytes that is the whole payload.
  lemma ArrivesWhole(m: Message)
    ensures Arriving(m) == m <==> |m.payload| < TWO_32
    ensures Fits(m) <==> Readable(m) && Arriving(m) == m
  {
    if Arriving(m) == m { assert |Arriving(m).payload| == |m.payload|; }
  }

  // Header and payload of an encoded frame.
  lemma EncodeShape(m: Message)
    ensures Encode(m) == [m.kind] + Digits(|m.payload|) + Arriving(m).payload
    ensures |Encode(m)| == HEADER_SIZE + |m.payload| % TWO_32
    ensures BigEndian(Encode(m)[1..HEADER_SIZE]) == |m.payload| % TWO_32
  {
    assert Encode(m)[1..HEADER_SIZE] == Digits(|m.payload|);
    BigEndianDigits(|m.payload|);
  }

  lemma FrameParts(m: Message, rest: seq<byte>)
    ensures var s := Encode(m) + rest;
            && |s| >= HEADER_SIZE && s[0] == m.kind && BigEndian(s[1..HEADER_SIZE]) == |m.payload| % TWO_32
            && |s| == HEADER_SIZE + |m.payload| % TWO_32 + |rest|
            && s[HEADER_SIZE..HEADER_SIZE + |m.payload| % TWO_32] == Arriving(m).payload
            && s[HEADER_SIZE + |m.payload| % TWO_32..] == rest
  {
    EncodeShape(m);
    assert (Encode(m) + rest)[1..HEADER_SIZE] == Encode(m)[1..HEADER_SIZE];
  }

  // What a frame is read as, whatever follows it; as what was sent exactly when its payload is within the limit.
  lemma NextEncode(m: Message, rest: seq<byte>)
    ensures Next(Encode(m) + rest) == if Readable(m) then Some((Arriving(m), rest)) else None
    ensures Next(Encode(m) + rest) == Some((m, rest)) <==> Fits(m)
  {
    FrameParts(m, rest);
    ArrivesWhole(m);
  }

  // A stream that stops inside a frame yields nothing for that frame.
  lemma NextCut(m: Message, k: nat)
    requires k < |Encode(m)|
    ensures Next(Encode(m)[..k]) == None
  {
    EncodeShape(m);
    if k >= HEADER_SIZE {
      assert Encode(m)[..k][1..HEADER_SIZE] == Encode(m)[1..HEADER_SIZE];
    }
  }

  lemma {:induction false} EncodeAllAppend(xs: seq<Message>, ys: seq<Message>)
    ensures EncodeAll(xs + ys) == EncodeAll(xs) + EncodeAll(ys)
  {
    if xs == [] {
      assert xs + ys == ys;
    } else {
      assert (xs + ys)[1..] == xs[1..] + ys;
      EncodeAllAppend(xs[1..], ys);
    }
  }

  lemma Associative<T>(a: seq<T>, b: seq<T>, c: seq<T>)
    ensures a + (b + c) == a + b + c
  {}

  lemma ParseOne(m: Message, rest: seq<byte>)
    requires Fits(m)
    ensures Parse(Encode(m) + rest) == [m] + Parse(rest)
  {
    NextEncode(m, rest);
    ArrivesWhole(m);
  }

  // Messages in front of any bytes at all are read back first, unchanged.
  lemma {:induction false} ParseEncodeAll(ms: seq<Message>, rest: seq<byte>)
    requires AllFit(ms)
    ensures Parse(EncodeAll(ms) + rest) == ms + Parse(rest)
  {
    if ms == [] {
      assert EncodeAll(ms) + rest == rest;
    } else {
      ParseOne(ms[0], EncodeAll(ms[1..]) + rest);
      ParseEncodeAll(ms[1..], rest);
      Associative(Encode(ms[0]), EncodeAll(ms[1..]), rest);
      Associative([ms[0]], ms[1..], Parse(rest));
      assert [ms[0]] + ms[1..] == ms;
    }
  }

  // A run of whole frames followed by part of one more: exactly the whole ones are read.
  lemma ParseCut(ms: seq<Message>, m: Message, k: nat)
    requires AllFit(ms) && k < |Encode(m)|
    ensures Parse(EncodeAll(ms) + Encode(m)[..k]) == ms
  {
    ParseEncodeAll(ms, Encode(m)[..k]);
    NextCut(m, k);
  }

  // An over-limit header ends the reading and leaves the earlier messages as they were.
  lemma ParseOverLimit(ms: seq<Message>, m: Message, rest: seq<byte>)
    requires AllFit(ms) && !Readable(m)
    ensures Parse(EncodeAll(ms) + (Encode(m) + rest)) == ms
  {
    ParseEncodeAll(ms, Encode(m) + rest);
    NextEncode(m, rest);
  }

  // What a reader makes of any messages at all: each as it arrives, up to the first over the limit.
  function Received(ms: seq<Message>): seq<Message> {
    if ms == [] || !Readable(ms[0]) then [] else [Arriving(ms[0])] + Received(ms[1..])
  }

  // Message i is read exactly when it and all before it are within the limit.
  lemma {:induction false} ReceivedAt(ms: seq<Message>, i: nat)
    requires i < |ms|
    ensures i < |Received(ms)| <==> forall j | 0 <= j <= i :: Readable(ms[j])
    ensures i < |Received(ms)| ==> Received(ms)[i] == Arriving(ms[i])
  {
    if Readable(ms[0]) && i > 0 {
      ReceivedAt(ms[1..], i - 1);
      assert forall j | 0 < j <= i :: ms[j] == ms[1..][j - 1];
    }
  }

  lemma {:induction false} ReceivedLength(ms: seq<Message>)
    ensures |Received(ms)| <= |ms|
  {
    if ms != [] { ReceivedLength(ms[1..]); }
  }

  // The messages are read as sent exactly when all of them fit.
  lemma {:induction false} ReceivedExactly(ms: seq<Message>)
    ensures Received(ms) == ms <==> AllFit(ms)
  {
    if ms != [] {
      ReceivedExactly(ms[1..]);
      ArrivesWhole(ms[0]);
      assert AllFit(ms) <==> Fits(ms[0]) && AllFit(ms[1..]) by {
        if Fits(ms[0]) && AllFit(ms[1..]) {
          forall i | 0 <= i < |ms| ensures Fits(ms[i]) { if i > 0 { assert Fits(ms[1..][i - 1]); } }
        }
      }
      if Readable(ms[0]) {
        assert Received(ms)[0] == Arriving(ms[0]) && Received(ms)[1..] == Received(ms[1..]);
        assert Received(ms) == ms <==> Arriving(ms[0]) == ms[0] && Received(ms[1..]) == ms[1..];
      }
    }
  }

  // Messages of any size in front of bytes that hold no frame: the reader gets them up to the first over the limit.
  lemma {:induction false} ParseAny(ms: seq<Message>, rest: seq<byte>)
    requires Next(rest) == None
    ensures Parse(EncodeAll(ms) + rest) == Received(ms)
  {
    if ms == [] {
      assert EncodeAll(ms) + rest == rest;
    } else {
      Associative(Encode(ms[0]), EncodeAll(ms[1..]), rest);
      NextEncode(ms[0], EncodeAll(ms[1..]) + rest);
      ParseAny(ms[1..], rest);
    }
  }

  // No frame is a prefix of a different one.
  lemma PrefixFree(a: Message, x: seq<byte>, b: Message, y: seq<byte>)
    requires Encode(a) + x == Encode(b) + y
    ensures Arriving(a) == Arriving(b) && x == y
    ensures |a.payload| < TWO_32 && |b.payload| < TWO_32 ==> a == b
  {
    FrameParts(a, x);
    FrameParts(b, y);
    ArrivesWhole(a);
    ArrivesWhole(b);
  }

  // So a byte stream is the concatenation of at most one sequence of frames.
  lemma {:induction false} UniqueParse(xs: seq<Message>, ys: seq<Message>)
    requires forall i | 0 <= i < |xs| :: |xs[i].payload| < TWO_32
    requires forall i | 0 <= i < |ys| :: |ys[i].payload| < TWO_32
    requires EncodeAll(xs) == EncodeAll(ys)
    ensures xs == ys
  {
    if xs != [] && ys != [] {
      PrefixFree(xs[0], EncodeAll(xs[1..]), ys[0], EncodeAll(ys[1..]));
      UniqueParse(xs[1..], ys[1..]);
    }
  }

  // How many leading messages lie wholly within the first `cut` bytes.
  function WholeBefore(ms: seq<Message>, cut: nat): (n: nat)
    ensures n <= |ms|
  {
    if ms == [] || cut < |Encode(ms[0])| then 0 else 1 + WholeBefore(ms[1..], cut - |Encode(ms[0])|)
  }

  // The cut-stream law: a stream of frames cut at any byte reads as the messages that arrived whole.
  lemma {:induction false} ParsePrefix(ms: seq<Message>, cut: nat)
    requires AllFit(ms) && cut <= |EncodeAll(ms)|
    ensures Parse(EncodeAll(ms)[..cut]) == ms[..WholeBefore(ms, cut)]
  {
    if ms == [] {
    } else if cut < |Encode(ms[0])| {
      assert EncodeAll(ms)[..cut] == Encode(ms[0])[..cut];
      NextCut(ms[0], cut);
    } else {
      var c := cut - |Encode(ms[0])|;
      assert EncodeAll(ms)[..cut] == Encode(ms[0]) + EncodeAll(ms[1..])[..c];
      NextEncode(ms[0], EncodeAll(ms[1..])[..c]);
      ParsePrefix(ms[1..], c);
    }
  }

  // WholeBefore counts what it says: the first n frames are inside the cut, the next one is not.
  lemma {:induction false} WholeBeforeExact(ms: seq<Message>, cut: nat)
    requires cut <= |EncodeAll(ms)|
    ensures var n := WholeBefore(ms, cut);
            |EncodeAll(ms[..n])| <= cut && (n < |ms| ==> cut < |EncodeAll(ms[..n + 1])|)
  {
    if ms != [] {
      var n := WholeBefore(ms, cut);
      if cut < |Encode(ms[0])| {
        assert ms[..1] == [ms[0]] && EncodeAll(ms[..1]) == Encode(ms[0]) + EncodeAll([]);
      } else {
        WholeBeforeExact(ms[1..], cut - |Encode(ms[0])|);
        assert ms[..n][1..] == ms[1..][..n - 1];
        assert n < |ms| ==> ms[..n + 1][1..] == ms[1..][..n];
      }
    }
  }
}
