/**
 Length-prefixed frames over a reader that hands out bytes in chunks of its own choosing and a writer
 that may fail part-way.
 */
module Framing {
  import opened Wrappers

  const MAX_FRAME: nat := 0x1_0000_0000

  // End of input before the first byte wanted, or after it.
  datatype ReadError = Eof | UnexpectedEof

  // ---------- The wire format ----------

  function BigEndian32(n: nat): seq<byte>
    requires n < MAX_FRAME
  {
    var n1 := n / 0x100;
    var n2 := n1 / 0x100;
    var n3 := n2 / 0x100;
    [n3, n2 % 0x100, n1 % 0x100, n % 0x100]
  }

  function FromBigEndian32(b: seq<byte>): nat
    requires |b| == 4
  {
    var (b0: int, b1: int, b2: int, b3: int) := (b[0], b[1], b[2], b[3]);
    ((b0 * 0x100 + b1) * 0x100 + b2) * 0x100 + b3
  }

  lemma BigEndian32RoundTrip(n: nat)
    requires n < 0x1_0000_0000
    ensures FromBigEndian32(BigEndian32(n)) == n
  {
  }

  lemma LowByte(high: nat, low: nat)
    requires low < 0x100
    ensures (high * 0x100 + low) / 0x100 == high && (high * 0x100 + low) % 0x100 == low
  {
  }

  // The prefix uses all of its four bytes, the most significant first.
  lemma PrefixIsBigEndian(b: seq<byte>)
    requires |b| == 4
    ensures var (b0: int, b1: int, b2: int, b3: int) := (b[0], b[1], b[2], b[3]);
            FromBigEndian32(b) == 0x100_0000 * b0 + 0x1_0000 * b1 + 0x100 * b2 + b3 < 0x1_0000_0000
    ensures BigEndian32(FromBigEndian32(b)) == b
  {
    var (b0: int, b1: int, b2: int, b3: int) := (b[0], b[1], b[2], b[3]);
    LowByte(b0, b1);
    LowByte(b0 * 0x100 + b1, b2);
    LowByte((b0 * 0x100 + b1) * 0x100 + b2, b3);
  }

  // The length is converted to 32 bits, which truncates it.
  function Frame(payload: seq<byte>): seq<byte> {
    BigEndian32(|payload| % MAX_FRAME) + payload
  }

  function Frames(payloads: seq<seq<byte>>): seq<byte> {
    if payloads == [] then [] else Frame(payloads[0]) + Frames(payloads[1..])
  }

  datatype Parsed = Parsed(payload: seq<byte>, rest: seq<byte>)

  // Reading n bytes in full: all of them, or an error that says whether any were there.
  function TakeFull(input: seq<byte>, n: nat): Result<Parsed, ReadError> {
    if n <= |input| then Ok(Parsed(input[..n], input[n..]))
    else if input == [] then Err(Eof)
    else Err(UnexpectedEof)
  }

  function ParseFrame(input: seq<byte>): Result<Parsed, ReadError> {
    match TakeFull(input, 4)
    case Err(e) => Err(e)
    case Ok(header) => TakeFull(header.rest, FromBigEndian32(header.payload))
  }

  // Reading frames until the first error: the frames, and the error that ended it.
  function ParseAll(input: seq<byte>): (seq<seq<byte>>, ReadError)
    decreases |input|
  {
    match ParseFrame(input)
    case Err(e) => ([], e)
    case Ok(p) => var (more, e) := ParseAll(p.rest); ([p.payload] + more, e)
  }

  // The length, reduced to 32 bits, and then the payload.
  lemma FrameLayout(payload: seq<byte>)
    ensures |Frame(payload)| == 4 + |payload| && Frame(payload)[4..] == payload
    ensures FromBigEndian32(Frame(payload)[..4]) == |payload| % 0x1_0000_0000
  {
    BigEndian32RoundTrip(|payload| % MAX_FRAME);
    assert Frame(payload)[..4] == BigEndian32(|payload| % MAX_FRAME);
  }

  // A frame is read back, whatever follows it, exactly when its length fits in 32 bits.
  lemma FrameRoundTripIff(payload: seq<byte>, rest: seq<byte>)
    ensures ParseFrame(Frame(payload) + rest) == Ok(Parsed(payload, rest)) <==> |payload| < 0x1_0000_0000
  {
    var n := |payload| % MAX_FRAME;
    var input := Frame(payload) + rest;
    assert input[..4] == BigEndian32(n) && input[4..] == payload + rest;
    BigEndian32RoundTrip(n);
    assert ParseFrame(input) == TakeFull(payload + rest, n);
    if |payload| < MAX_FRAME {
      assert (payload + rest)[..n] == payload && (payload + rest)[n..] == rest;
    } else {
      assert n < |payload|;
    }
  }

  ghost predicate AllFit(payloads: seq<seq<byte>>) {
    forall i :: 0 <= i < |payloads| ==> |payloads[i]| < MAX_FRAME
  }

  // Any proper prefix of a frame is an error, never a frame. The error is a plain end of input not
  // only when nothing was there but also when the stream stops right after a header.
  lemma TruncatedFrameIsError(payload: seq<byte>, k: nat)
    requires |payload| < MAX_FRAME && k < |Frame(payload)|
    ensures ParseFrame(Frame(payload)[..k]) == Err(if k == 0 || k == 4 then Eof else UnexpectedEof)
  {
    var header, input := BigEndian32(|payload|), Frame(payload)[..k];
    assert Frame(payload) == header + payload;
    if k >= 4 {
      assert input == header + payload[..k - 4];
      assert input[..4] == header && input[4..] == payload[..k - 4];
      BigEndian32RoundTrip(|payload|);
    }
  }

  // How many whole frames lie within the first k bytes.
  function WholeFrames(payloads: seq<seq<byte>>, k: nat): nat {
    if payloads == [] || k < |Frame(payloads[0])| then 0
    else 1 + WholeFrames(payloads[1..], k - |Frame(payloads[0])|)
  }

  // How many bytes of the frame that did not arrive whole lie within the first k.
  function LeftOver(payloads: seq<seq<byte>>, k: nat): nat {
    if payloads == [] || k < |Frame(payloads[0])| then k
    else LeftOver(payloads[1..], k - |Frame(payloads[0])|)
  }

  // A stream cut within its first frame, and one cut after it.
  lemma CutWithinFirst(payloads: seq<seq<byte>>, k: nat)
    requires payloads != [] && |payloads[0]| < MAX_FRAME && k < |Frame(payloads[0])|
    ensures ParseAll(Frames(payloads)[..k]) == ([], if k in {0, 4} then Eof else UnexpectedEof)
  {
    assert Frames(payloads)[..k] == Frame(payloads[0])[..k];
    TruncatedFrameIsError(payloads[0], k);
  }

  lemma CutAfterFirst(payloads: seq<seq<byte>>, k: nat)
    requires payloads != [] && |payloads[0]| < MAX_FRAME && |Frame(payloads[0])| <= k <= |Frames(payloads)|
    ensures var (frames, e) := ParseAll(Frames(payloads[1..])[..k - |Frame(payloads[0])|]);
            ParseAll(Frames(payloads)[..k]) == ([payloads[0]] + frames, e)
  {
    var first, tail := Frame(payloads[0]), Frames(payloads[1..]);
    assert Frames(payloads)[..k] == first + tail[..k - |first|];
    FrameRoundTripIff(payloads[0], tail[..k - |first|]);
  }

  lemma {:induction false} WholeFramesOfAll(payloads: seq<seq<byte>>, k: nat)
    requires k <= |Frames(payloads)|
    ensures WholeFrames(payloads, k) <= |payloads|
    ensures k == |Frames(payloads)| ==> WholeFrames(payloads, k) == |payloads| && LeftOver(payloads, k) == 0
    decreases |payloads|
  {
    if payloads != [] && k >= |Frame(payloads[0])| {
      WholeFramesOfAll(payloads[1..], k - |Frame(payloads[0])|);
    }
  }

  lemma ConsPrefix(payloads: seq<seq<byte>>, n: nat)
    requires n < |payloads|
    ensures [payloads[0]] + payloads[1..][..n] == payloads[..1 + n]
  {
  }

  // However much of a stream of frames arrives, the reader gets exactly the frames that arrived
  // whole, in order and unaltered, and then an error: a clean end of input at a boundary of a frame
  // or right after a header, a premature one anywhere else.
  lemma {:induction false} PrefixYieldsWholeFrames(payloads: seq<seq<byte>>, k: nat)
    requires AllFit(payloads) && k <= |Frames(payloads)|
    ensures WholeFrames(payloads, k) <= |payloads|
    ensures ParseAll(Frames(payloads)[..k]).0 == payloads[..WholeFrames(payloads, k)]
    ensures ParseAll(Frames(payloads)[..k]).1 == if LeftOver(payloads, k) in {0, 4} then Eof else UnexpectedEof
    ensures k == |Frames(payloads)| ==> WholeFrames(payloads, k) == |payloads| && LeftOver(payloads, k) == 0
    decreases |payloads|
  {
    WholeFramesOfAll(payloads, k);
    if payloads != [] {
      assert |payloads[0]| < MAX_FRAME;
      if k < |Frame(payloads[0])| {
        CutWithinFirst(payloads, k);
      } else {
        var j := k - |Frame(payloads[0])|;
        CutAfterFirst(payloads, k);
        PrefixYieldsWholeFrames(payloads[1..], j);
        ConsPrefix(payloads, WholeFrames(payloads[1..], j));
      }
    }
  }

  // Reading |payloads| frames one after the other.
  function ParseN(input: seq<byte>, n: nat): Result<(seq<seq<byte>>, seq<byte>), ReadError> {
    if n == 0 then Ok(([], input))
    else
      match ParseFrame(input)
      case Err(e) => Err(e)
      case Ok(p) =>
        match ParseN(p.rest, n - 1)
        case Err(e) => Err(e)
        case Ok((more, rest)) => Ok(([p.payload] + more, rest))
  }

  // Frames are self-synchronising: read back in order, leaving exactly what followed them.
  lemma {:induction false} FramesRoundTrip(payloads: seq<seq<byte>>, rest: seq<byte>)
    requires AllFit(payloads)
    ensures ParseN(Frames(payloads) + rest, |payloads|) == Ok((payloads, rest))
    decreases |payloads|
  {
    if payloads == [] {
      assert Frames(payloads) + rest == rest;
    } else {
      var first, tail := payloads[0], payloads[1..];
      assert Frames(payloads) + rest == Frame(first) + (Frames(tail) + rest);
      assert |first| < MAX_FRAME;
      FrameRoundTripIff(first, Frames(tail) + rest);
      FramesRoundTrip(tail, rest);
      assert [first] + tail == payloads;
    }
  }

  // ---------- Readers and writers ----------

  function Flatten(chunks: seq<seq<byte>>): seq<byte> {
    if chunks == [] then [] else chunks[0] + Flatten(chunks[1..])
  }

  function Min(a: nat, b: nat): nat { if a <= b then a else b }

  // A reader that returns at most one of its chunks at a time; the chunks are the adversary's.
  class Reader {
    var chunks: seq<seq<byte>>

    ghost predicate Valid()
      reads this
    {
      forall i :: 0 <= i < |chunks| ==> chunks[i] != []
    }

    ghost function Unread(): seq<byte>
      reads this
    {
      Flatten(chunks)
    }

    constructor (chunks: seq<seq<byte>>)
      requires forall i :: 0 <= i < |chunks| ==> chunks[i] != []
      ensures Valid() && Unread() == Flatten(chunks)
    {
      this.chunks := chunks;
    }

    // Up to max bytes; None at the end of input.
    method Read(max: nat) returns (b: Option<seq<byte>>)
      requires Valid() && max > 0
      modifies this
      ensures Valid()
      ensures b.None? ==> old(Unread()) == [] && Unread() == []
      ensures b.Some? ==> 0 < |b.value| <= max && old(Unread()) == b.value + Unread()
    {
      if chunks == [] {
        return None;
      }
      var first := chunks[0];
      if |first| <= max {
        chunks := chunks[1..];
        return Some(first);
      }
      b := Some(first[..max]);
      chunks := [first[max..]] + chunks[1..];
      assert first == first[..max] + first[max..];
    }

    // io.ReadFull.
    method ReadFull(n: nat) returns (r: Result<seq<byte>, ReadError>)
      requires Valid()
      modifies this
      ensures Valid()
      ensures match TakeFull(old(Unread()), n)
              case Ok(p) => r == Ok(p.payload) && Unread() == p.rest
              case Err(e) => r == Err(e) && Unread() == []
    {
      var got: seq<byte> := [];
      while |got| < n
        invariant Valid() && |got| <= n && old(Unread()) == got + Unread()
        decreases n - |got|
      {
        var b := Read(n - |got|);
        if b.None? {
          return Err(if |got| > 0 then UnexpectedEof else Eof);
        }
        got := got + b.value;
      }
      return Ok(got);
    }

    // One length-prefixed frame.
    method ReadFrame() returns (r: Result<seq<byte>, ReadError>)
      requires Valid()
      modifies this
      ensures Valid()
      ensures match ParseFrame(old(Unread()))
              case Ok(p) => r == Ok(p.payload) && Unread() == p.rest
              case Err(e) => r == Err(e) && Unread() == []
    {
      var length := ReadFull(4);
      if length.Err? {
        return length;
      }
      r := ReadFull(FromBigEndian32(length.value));
    }
  }

  // The reading loop: frame after frame until the first error.
  method ReadUntilError(r: Reader) returns (frames: seq<seq<byte>>, e: ReadError)
    requires r.Valid()
    modifies r
    ensures r.Valid() && (frames, e) == ParseAll(old(r.Unread()))
  {
    frames := [];
    assert [] + ParseAll(r.Unread()).0 == ParseAll(r.Unread()).0;
    while true
      invariant r.Valid()
      invariant ParseAll(old(r.Unread())) == (frames + ParseAll(r.Unread()).0, ParseAll(r.Unread()).1)
      decreases |r.Unread()|
    {
      label next:
      var frame := r.ReadFrame();
      match frame {
        case Err(err) =>
          assert ParseAll(old@next(r.Unread())) == ([], err) && frames + [] == frames;
          return frames, err;
        case Ok(b) =>
          assert frames + ([b] + ParseAll(r.Unread()).0) == (frames + [b]) + ParseAll(r.Unread()).0;
          frames := frames + [b];
      }
    }
  }

  // n frames one after the other, whatever the chunks.
  method ReadFrames(r: Reader, n: nat) returns (frames: Result<seq<seq<byte>>, ReadError>)
    requires r.Valid()
    modifies r
    ensures r.Valid()
    ensures match ParseN(old(r.Unread()), n)
            case Ok((payloads, rest)) => frames == Ok(payloads) && r.Unread() == rest
            case Err(e) => frames == Err(e) && r.Unread() == []
  {
    if n == 0 {
      return Ok([]);
    }
    var first := r.ReadFrame();
    if first.Err? {
      return Err(first.error);
    }
    var more := ReadFrames(r, n - 1);
    match more
    case Err(e) => frames := Err(e);
    case Ok(others) => frames := Ok([first.value] + others);
  }

  // What was written frame by frame arrives as those frames, and nothing after them is touched.
  method ReceiveFrames(r: Reader, ghost payloads: seq<seq<byte>>, ghost rest: seq<byte>, n: nat)
    returns (frames: Result<seq<seq<byte>>, ReadError>)
    requires r.Valid() && AllFit(payloads) && n == |payloads| && r.Unread() == Frames(payloads) + rest
    modifies r
    ensures r.Valid() && frames == Ok(payloads) && r.Unread() == rest
  {
    FramesRoundTrip(payloads, rest);
    frames := ReadFrames(r, n);
  }

  // The end of a byte stream that takes bytes until, at some point, it does not.
  class Writer {
    var written: seq<byte>
    var capacity: nat

    constructor (capacity: nat)
      ensures written == [] && this.capacity == capacity
    {
      written, this.capacity := [], capacity;
    }

    method Write(b: seq<byte>) returns (ok: bool)
      modifies this
      ensures written == old(written) + b[..Min(|b|, old(capacity))]
      ensures capacity == old(capacity) - Min(|b|, old(capacity))
      ensures ok <==> |b| <= old(capacity)
    {
      var n := Min(|b|, capacity);
      ok := n == |b|;
      written := written + b[..n];
      capacity := capacity - n;
    }

    // The header and the payload are written one after the other; either write may fail.
    method WriteFrame(payload: seq<byte>) returns (ok: bool)
      modifies this
      ensures written == old(written) + Frame(payload)[..Min(|Frame(payload)|, old(capacity))]
      ensures capacity == old(capacity) - Min(|Frame(payload)|, old(capacity))
      ensures ok <==> |Frame(payload)| <= old(capacity)
    {
      var header := BigEndian32(|payload| % MAX_FRAME);
      ok := Write(header);
      if !ok {
        assert Frame(payload)[..old(capacity)] == header[..old(capacity)];
        return;
      }
      ok := Write(payload);
      var n := Min(|payload|, old(capacity) - 4);
      assert Frame(payload)[..4 + n] == header + payload[..n];
    }
  }
}
