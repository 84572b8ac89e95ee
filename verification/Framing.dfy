/** The wire format: a four-byte length, a four-byte serial id, then the payload; both big-endian. */
module Framing {
  type Byte = x: int | 0 <= x < 256
  type U32 = x: int | 0 <= x < 0x1_0000_0000

  const HEADER_SIZE := 8
  const SERIAL_ID_SIZE := 4
  const MAX_FRAME_SIZE := 4 * 1024 * 1024
  const MAX_PAYLOAD_SIZE := MAX_FRAME_SIZE - SERIAL_ID_SIZE

  datatype Frame = Frame(serial: U32, payload: seq<Byte>)

  datatype Decoded = Complete(frame: Frame, size: nat) | Incomplete | Malformed | TooLarge

  predicate Fits(f: Frame) {
    |f.payload| <= MAX_PAYLOAD_SIZE
  }

  function BigEndian(x: U32): (b: seq<Byte>)
    ensures |b| == 4
  {
    [x / 0x100_0000, x / 0x1_0000 % 256, x / 0x100 % 256, x % 256]
  }

  function Number(b: seq<Byte>): U32
    requires |b| == 4
  {
    (((b[0] as int) * 256 + b[1]) * 256 + b[2]) * 256 + b[3]
  }

  lemma NumberOfBigEndian(x: U32)
    ensures Number(BigEndian(x)) == x
  {
    var x1: int, x2: int, x3: int := x / 0x100, x / 0x1_0000, x / 0x100_0000;
    assert x == x1 * 256 + x % 256;
    assert x2 == x1 / 256 && x1 == x2 * 256 + x1 % 256;
    assert x3 == x2 / 256 && x2 == x3 * 256 + x2 % 256;
  }

  lemma BigEndianOfNumber(b: seq<Byte>)
    requires |b| == 4
    ensures BigEndian(Number(b)) == b
  {
    var x: int, h: int := Number(b), b[0];
    assert x / 0x100 == (h * 256 + b[1]) * 256 + b[2];
    assert x / 0x1_0000 == h * 256 + b[1];
    assert x / 0x100_0000 == h;
  }

  function Encode(f: Frame): (b: seq<Byte>)
    requires Fits(f)
    ensures |b| == HEADER_SIZE + |f.payload|
  {
    BigEndian(SERIAL_ID_SIZE + |f.payload|) + BigEndian(f.serial) + f.payload
  }

  /** The frame at the front of the buffer, or why there is none. */
  function Decode(b: seq<Byte>): Decoded {
    if |b| < HEADER_SIZE then Incomplete else
      var total := Number(b[..4]);
      if total < SERIAL_ID_SIZE then Malformed
      else if total > MAX_FRAME_SIZE then TooLarge
      else if |b| < 4 + total then Incomplete
      else Complete(Frame(Number(b[4..8]), b[HEADER_SIZE..4 + total]), 4 + total)
  }

  /** Whatever follows it, an encoded frame decodes to itself and to its own length. */
  lemma RoundTrip(f: Frame, rest: seq<Byte>)
    requires Fits(f)
    ensures Decode(Encode(f) + rest) == Complete(f, |Encode(f)|)
  {
    var b := Encode(f) + rest;
    NumberOfBigEndian(SERIAL_ID_SIZE + |f.payload|);
    NumberOfBigEndian(f.serial);
    assert b[..4] == BigEndian(SERIAL_ID_SIZE + |f.payload|);
    assert b[4..8] == BigEndian(f.serial);
    assert b[8..8 + |f.payload|] == f.payload;
  }

  /** Nothing but an encoded frame decodes. */
  lemma OnlyEncodings(b: seq<Byte>)
    requires Decode(b).Complete?
    ensures var d := Decode(b); Fits(d.frame) && d.size <= |b| && b[..d.size] == Encode(d.frame)
  {
    var d := Decode(b);
    BigEndianOfNumber(b[..4]);
    BigEndianOfNumber(b[4..8]);
    assert b[..d.size] == b[..4] + b[4..8] + b[8..d.size];
  }

  /** A frame that has not fully arrived is never taken for anything else. */
  lemma PartIsIncomplete(f: Frame, k: nat)
    requires Fits(f) && k < |Encode(f)|
    ensures Decode(Encode(f)[..k]) == Incomplete
  {
    if k >= HEADER_SIZE {
      NumberOfBigEndian(SERIAL_ID_SIZE + |f.payload|);
      assert Encode(f)[..k][..4] == BigEndian(SERIAL_ID_SIZE + |f.payload|);
    }
  }

  /** More bytes never change a verdict once there is one. */
  lemma VerdictIsFinal(b: seq<Byte>, more: seq<Byte>)
    requires !Decode(b).Incomplete?
    ensures Decode(b + more) == Decode(b)
  {
    assert (b + more)[..4] == b[..4] && (b + more)[4..8] == b[4..8];
    if Decode(b).Complete? {
      assert (b + more)[8..Decode(b).size] == b[8..Decode(b).size];
    }
  }

  /** The four bytes from i on are x, the highest first. */
  predicate WrittenAt(b: seq<Byte>, i: nat, x: int) {
    i + 4 <= |b| && x == (b[i] as int) * 0x100_0000 + (b[i + 1] as int) * 0x1_0000 + (b[i + 2] as int) * 0x100 + (b[i + 3] as int)
  }

  /** What goes over the wire, byte by byte: length and serial id, the highest byte first, and the payload. */
  lemma EncodeLayout(f: Frame)
    requires Fits(f)
    ensures var b := Encode(f);
            WrittenAt(b, 0, 4 + |f.payload|) && WrittenAt(b, 4, f.serial) && b[8..] == f.payload
  {
    NumberOfBigEndian(SERIAL_ID_SIZE + |f.payload|);
    NumberOfBigEndian(f.serial);
    var b := Encode(f);
    assert b[..4] == BigEndian(SERIAL_ID_SIZE + |f.payload|) && b[4..8] == BigEndian(f.serial);
    NumberWritten(b, 0);
    NumberWritten(b, 4);
  }

  lemma NumberWritten(b: seq<Byte>, i: nat)
    requires i + 4 <= |b|
    ensures WrittenAt(b, i, Number(b[i..i + 4]))
  {
  }

  /** A StreamMetrics request on the wire. */
  lemma StreamMetricsBytes()
    ensures Encode(Frame(27, [])) == [0, 0, 0, 4, 0, 0, 0, 27]
    ensures Decode([0, 0, 0, 4, 0, 0, 0, 27]) == Complete(Frame(27, []), 8)
  {
    RoundTrip(Frame(27, []), []);
    assert Encode(Frame(27, [])) + [] == Encode(Frame(27, []));
  }

  /** What is made of the bytes that arrive: the verdict, the serial id, the size and the payload. */
  lemma DecodeLayout(b: seq<Byte>, total: int, serial: int)
    requires |b| >= 8 ==> WrittenAt(b, 0, total) && WrittenAt(b, 4, serial)
    ensures |b| < 8 ==> Decode(b) == Incomplete
    ensures |b| >= 8 ==>
              && (Decode(b) == Malformed <==> total < 4)
              && (Decode(b) == TooLarge <==> total > 4_194_304)
              && (Decode(b) == Incomplete <==> 4 <= total <= 4_194_304 && |b| < 4 + total)
              && (Decode(b).Complete? ==>
                    && Decode(b).size == 4 + total && Decode(b).frame.serial == serial
                    && Decode(b).frame.payload == b[8..4 + total])
  {
    if |b| >= 8 {
      NumberWritten(b, 0);
      NumberWritten(b, 4);
      assert b[0..4] == b[..4];
    }
  }

  method TryEncode(serial: U32, payload: seq<Byte>) returns (ok: bool, buffer: seq<Byte>)
    ensures ok <==> |payload| <= MAX_PAYLOAD_SIZE
    ensures ok ==> Decode(buffer) == Complete(Frame(serial, payload), |buffer|)
    ensures ok ==> buffer == Encode(Frame(serial, payload))
    ensures ok ==> |buffer| == 8 + |payload| && buffer[8..] == payload
    ensures ok ==> 4 + |payload| == ((buffer[0] as int * 256 + buffer[1]) * 256 + buffer[2]) * 256 + buffer[3]
    ensures ok ==> serial == ((buffer[4] as int * 256 + buffer[5]) * 256 + buffer[6]) * 256 + buffer[7]
  {
    buffer := [];
    if |payload| > MAX_PAYLOAD_SIZE { return false, buffer; }
    var total := SERIAL_ID_SIZE + |payload|;
    buffer := [total / 0x100_0000, total / 0x1_0000 % 256, total / 0x100 % 256, total % 256,
               serial / 0x100_0000, serial / 0x1_0000 % 256, serial / 0x100 % 256, serial % 256] + payload;
    ok := true;
    RoundTrip(Frame(serial, payload), []);
    assert buffer == Encode(Frame(serial, payload)) == Encode(Frame(serial, payload)) + [];
    EncodeLayout(Frame(serial, payload));
  }

  // ---------- a stream of frames ----------

  /** The frames at the front of a byte stream, what is left after them, and whether that is invalid. */
  datatype Parsed = Parsed(frames: seq<Frame>, rest: seq<Byte>, invalid: bool)

  function Prefixed(frames: seq<Frame>, p: Parsed): Parsed {
    Parsed(frames + p.frames, p.rest, p.invalid)
  }

  function Parse(b: seq<Byte>): Parsed
    decreases |b|
  {
    match Decode(b)
    case Incomplete => Parsed([], b, false)
    case Malformed => Parsed([], b, true)
    case TooLarge => Parsed([], b, true)
    case Complete(f, size) => Prefixed([f], Parse(b[size..]))
  }

  /** What the server has made of the stream so far; once invalid it closes and reads no more. */
  function Fed(p: Parsed, chunk: seq<Byte>): Parsed {
    if p.invalid then p else Prefixed(p.frames, Parse(p.rest + chunk))
  }

  function FedAll(chunks: seq<seq<Byte>>): Parsed {
    if chunks == [] then Parsed([], [], false) else Fed(FedAll(chunks[..|chunks| - 1]), chunks[|chunks| - 1])
  }

  function Joined(chunks: seq<seq<Byte>>): seq<Byte> {
    if chunks == [] then [] else Joined(chunks[..|chunks| - 1]) + chunks[|chunks| - 1]
  }

  /** Parsing b first and then the rest of it with more is parsing both together. */
  lemma {:induction false} ParseMore(b: seq<Byte>, more: seq<Byte>)
    ensures var p, q := Parse(b), Parse(b + more);
            && (p.invalid ==> q.invalid && q.frames == p.frames)
            && (!p.invalid ==> q == Fed(p, more))
    decreases |b|
  {
    if Decode(b).Complete? {
      var f, size := Decode(b).frame, Decode(b).size;
      VerdictIsFinal(b, more);
      assert (b + more)[size..] == b[size..] + more;
      ParseMore(b[size..], more);
      FrontFrame(f, Parse(b[size..]), Parse(b[size..] + more), more);
    } else if !Decode(b).Incomplete? {
      VerdictIsFinal(b, more);
    }
  }

  /** A frame in front makes no difference to how the rest goes on. */
  lemma FrontFrame(f: Frame, p: Parsed, q: Parsed, more: seq<Byte>)
    requires p.invalid ==> q.invalid && q.frames == p.frames
    requires !p.invalid ==> q == Fed(p, more)
    ensures p.invalid ==> Prefixed([f], q).frames == Prefixed([f], p).frames
    ensures !p.invalid ==> Prefixed([f], q) == Fed(Prefixed([f], p), more)
  {
    if !p.invalid {
      var r := Parse(p.rest + more);
      assert [f] + (p.frames + r.frames) == [f] + p.frames + r.frames;
    }
  }

  /** However the stream is cut into reads, the server sees the same frames and the same verdict. */
  lemma {:induction false} ChunkingDoesNotMatter(chunks: seq<seq<Byte>>)
    ensures !FedAll(chunks).invalid ==> FedAll(chunks) == Parse(Joined(chunks))
    ensures FedAll(chunks).invalid ==> Parse(Joined(chunks)).invalid && FedAll(chunks).frames == Parse(Joined(chunks)).frames
    decreases |chunks|
  {
    if chunks != [] {
      var front, last := chunks[..|chunks| - 1], chunks[|chunks| - 1];
      ChunkingDoesNotMatter(front);
      ParseMore(Joined(front), last);
    }
  }

  lemma ParseFront(f: Frame, tail: seq<Byte>)
    requires Fits(f)
    ensures Parse(Encode(f) + tail) == Prefixed([f], Parse(tail))
  {
    RoundTrip(f, tail);
    assert (Encode(f) + tail)[|Encode(f)|..] == tail;
  }

  /** All frames of a valid stream come out, in order, and nothing is left. */
  lemma {:induction false} ParseInvertsEncoding(frames: seq<Frame>)
    requires forall i :: 0 <= i < |frames| ==> Fits(frames[i])
    ensures Parse(EncodeAll(frames)) == Parsed(frames, [], false)
  {
    if frames != [] {
      ParseFront(frames[0], EncodeAll(frames[1..]));
      ParseInvertsEncoding(frames[1..]);
      assert [frames[0]] + frames[1..] == frames;
    }
  }

  function EncodeAll(frames: seq<Frame>): seq<Byte>
    requires forall i :: 0 <= i < |frames| ==> Fits(frames[i])
  {
    if frames == [] then [] else Encode(frames[0]) + EncodeAll(frames[1..])
  }

  lemma PrefixedStep(frames: seq<Frame>, b: seq<Byte>)
    requires Decode(b).Complete?
    ensures var d := Decode(b); Prefixed(frames, Parse(b)) == Prefixed(frames + [d.frame], Parse(b[d.size..]))
  {
    var d := Decode(b);
    var rest := Parse(b[d.size..]).frames;
    assert frames + ([d.frame] + rest) == frames + [d.frame] + rest;
  }

  predicate AllFit(frames: seq<Frame>) {
    forall i :: 0 <= i < |frames| ==> Fits(frames[i])
  }

  /** The bytes are the frames' encodings and the rest. */
  ghost predicate Splits(b: seq<Byte>, p: Parsed) {
    AllFit(p.frames) && b == EncodeAll(p.frames) + p.rest
  }

  lemma FrameInFront(f: Frame, b: seq<Byte>, p: Parsed)
    requires Fits(f) && Splits(b, p)
    ensures Splits(Encode(f) + b, Prefixed([f], p))
  {
    var frames := [f] + p.frames;
    assert frames[1..] == p.frames;
    assert Encode(f) + (EncodeAll(p.frames) + p.rest) == (Encode(f) + EncodeAll(p.frames)) + p.rest;
  }

  /** Nothing is lost or added by parsing. */
  lemma {:induction false} ParseSplits(b: seq<Byte>)
    ensures Splits(b, Parse(b))
    decreases |b|
  {
    if Decode(b).Complete? {
      var f, size := Decode(b).frame, Decode(b).size;
      OnlyEncodings(b);
      ParseSplits(b[size..]);
      FrameInFront(f, b[size..], Parse(b[size..]));
      assert b == b[..size] + b[size..];
    } else {
      assert EncodeAll([]) + b == b;
    }
  }

  lemma {:induction false} ParseStops(b: seq<Byte>)
    ensures var d := Decode(Parse(b).rest); !d.Complete? && (Parse(b).invalid <==> d == Malformed || d == TooLarge)
    decreases |b|
  {
    if Decode(b).Complete? { ParseStops(b[Decode(b).size..]); }
  }

  /**
   What parsing any bytes means: they are the frames' encodings and a rest that starts with no whole
   frame, and they are invalid exactly when that rest can never become one.
   */
  lemma ParseExactly(b: seq<Byte>)
    ensures var p := Parse(b); var d := Decode(p.rest);
            && (forall i :: 0 <= i < |p.frames| ==> Fits(p.frames[i]))
            && b == EncodeAll(p.frames) + p.rest
            && !d.Complete? && (p.invalid <==> d == Malformed || d == TooLarge)
  {
    ParseSplits(b);
    ParseStops(b);
  }

  /** The read buffer of one connection of the server. */
  class FrameReader {
    var buffer: seq<Byte>
    var closed: bool
    ghost var seen: Parsed

    ghost predicate Valid()
      reads this
    {
      buffer == seen.rest && closed == seen.invalid
    }

    constructor ()
      ensures Valid() && seen == FedAll([]) && buffer == [] && !closed
    {
      buffer, closed, seen := [], false, Parsed([], [], false);
    }

    /** One read and the decode loop after it; the frames go to the dispatcher in this order. */
    method Feed(chunk: seq<Byte>) returns (frames: seq<Frame>)
      requires Valid() && !closed
      modifies this
      ensures Valid() && seen == Fed(old(seen), chunk) && seen.frames == old(seen).frames + frames
    {
      frames := [];
      buffer := buffer + chunk;
      ghost var whole := buffer;
      while true
        invariant !closed && seen == old(seen)
        invariant Parse(whole) == Prefixed(frames, Parse(buffer))
        decreases |buffer|
      {
        match Decode(buffer)
        case Incomplete =>
          break;
        case Malformed =>
          closed := true;
          break;
        case TooLarge =>
          closed := true;
          break;
        case Complete(f, size) =>
          PrefixedStep(frames, buffer);
          frames := frames + [f];
          buffer := buffer[size..];
      }
      seen := Fed(seen, chunk);
    }
  }

  /** The bytes recv would return before it returns none. */
  function Supplied(cuts: seq<nat>): nat {
    if cuts == [] || cuts[0] == 0 then 0 else cuts[0] + Supplied(cuts[1..])
  }

  /**
   recvExact over the bytes the peer sends. The i-th recv would return cuts[i] bytes; it returns no
   more than are wanted and no more than there are, and returning none ends the call.
   */
  method RecvExact(incoming: seq<Byte>, size: nat, cuts: seq<nat>) returns (ok: bool, data: seq<Byte>)
    ensures data <= incoming
    ensures if ok then |data| == size else |data| < size
    ensures ok <==> size <= |incoming| && size <= Supplied(cuts)
  {
    data := [];
    var i := 0;
    while |data| < size
      invariant i <= |cuts| && |data| <= size && data <= incoming
      invariant |data| < size && |data| < |incoming| ==> Supplied(cuts) == |data| + Supplied(cuts[i..])
      invariant |data| <= Supplied(cuts)
      decreases |cuts| - i
    {
      if i == |cuts| { return false, data; }
      assert cuts[i..][0] == cuts[i] && cuts[i..][1..] == cuts[i + 1..];
      var left := |incoming| - |data|;
      var n := if cuts[i] <= size - |data| then cuts[i] else size - |data|;
      n := if n <= left then n else left;
      if n == 0 { return false, data; }
      data := data + incoming[|data|..|data| + n];
      i := i + 1;
    }
    ok := true;
  }
}
