/** The length-prefixed IPC frame codec (crates/ipc/src/codec.rs). */
module FrameCodec {
  import opened Prelude

  const LENGTH_PREFIX: nat := 4
  const MAX_FRAME_BYTES: nat := 16 * 1024 * 1024

  datatype Error = FrameTooLarge(size: nat, max: nat) | Closed | Io

  // ---- the specification: one pass over the whole byte stream ----------

  /** Little-endian u32. */
  function ToLe(n: nat): Bytes
    requires n < 0x1_0000_0000
  {
    [(n % 256) as byte, (n / 256 % 256) as byte, (n / 65536 % 256) as byte, (n / 16777216) as byte]
  }

  function FromLe(b: Bytes): (n: nat)
    requires |b| == LENGTH_PREFIX
    ensures n < 0x1_0000_0000
  {
    b[0] as nat + 256 * (b[1] as nat) + 65536 * (b[2] as nat) + 16777216 * (b[3] as nat)
  }

  lemma LeRoundTrip(n: nat)
    requires n < 0x1_0000_0000
    ensures FromLe(ToLe(n)) == n
  {
    assert n / 256 == (n / 65536) * 256 + n / 256 % 256;
    assert n / 65536 == (n / 16777216) * 256 + n / 65536 % 256;
  }

  function Encode(payload: Bytes): Bytes
    requires |payload| <= MAX_FRAME_BYTES
  {
    ToLe(|payload|) + payload
  }

  ghost predicate Sendable(payloads: seq<Bytes>) {
    forall i :: 0 <= i < |payloads| ==> |payloads[i]| <= MAX_FRAME_BYTES
  }

  function EncodeAll(payloads: seq<Bytes>): Bytes
    requires Sendable(payloads)
  {
    if payloads == [] then [] else Encode(payloads[0]) + EncodeAll(payloads[1..])
  }

  /** What the front of a byte stream holds. */
  datatype Front = Frame(payload: Bytes, rest: Bytes) | Oversize(declared: nat) | Incomplete

  function Scan(s: Bytes): Front {
    if |s| < LENGTH_PREFIX then
      Incomplete
    else
      var declared := FromLe(s[..LENGTH_PREFIX]);
      if declared > MAX_FRAME_BYTES then
        Oversize(declared)
      else if |s| < LENGTH_PREFIX + declared then
        Incomplete
      else
        Frame(s[LENGTH_PREFIX..LENGTH_PREFIX + declared], s[LENGTH_PREFIX + declared..])
  }

  /** All the frames of a stream, and the error that ends it; `fault` is the
      error met where the bytes run out. */
  datatype Decoded = Decoded(frames: seq<Bytes>, end: Error)

  function Frames(s: Bytes, fault: Error): Decoded
    decreases |s|
  {
    match Scan(s)
    case Frame(payload, rest) =>
      var more := Frames(rest, fault);
      Decoded([payload] + more.frames, more.end)
    case Oversize(declared) => Decoded([], FrameTooLarge(declared, MAX_FRAME_BYTES))
    case Incomplete => Decoded([], fault)
  }

  /** On the wire: the length, least significant byte first, and then the payload. */
  lemma WireFormat(payload: Bytes)
    requires |payload| <= 16_777_216
    ensures var e, n := Encode(payload), |payload|;
      && |e| == 4 + n && e[4..] == payload
      && e[0] as nat == n % 256 && e[1] as nat == n / 256 % 256
      && e[2] as nat == n / 65_536 % 256 && e[3] as nat == n / 16_777_216
  {
  }

  /** The number four bytes declare. */
  function Declared(b0: byte, b1: byte, b2: byte, b3: byte): nat {
    b0 as nat + 256 * (b1 as nat) + 65_536 * (b2 as nat) + 16_777_216 * (b3 as nat)
  }

  /** A stream is refused for the declared length alone, as soon as four bytes are there;
      a frame is out exactly when all its bytes are; and else more is needed. */
  lemma ScanVerdict(s: Bytes)
    ensures |s| < 4 ==> Scan(s) == Incomplete
    ensures |s| >= 4 ==>
      var n := Declared(s[0], s[1], s[2], s[3]);
      && (n > 16_777_216 ==> Scan(s) == Oversize(n))
      && (n <= 16_777_216 && |s| < 4 + n ==> Scan(s) == Incomplete)
      && (n <= 16_777_216 && |s| >= 4 + n ==> Scan(s) == Frame(s[4..4 + n], s[4 + n..]))
  {
  }

  // ---- the wire and the reader -----------------------------------------

  /** The receiving half of a socket: the reads it will deliver, in order, and
      the error of the read after the last one (`Closed` at end of stream). */
  class Source {
    var chunks: seq<Bytes>
    const fault: Error

    constructor (chunks: seq<Bytes>, fault: Error)
      ensures this.chunks == chunks && this.fault == fault
    {
      this.chunks := chunks;
      this.fault := fault;
    }

    /** One `read_buf`: append whatever arrives. The precondition is the memory
        bound: nobody asks for more while already holding a whole frame. */
    method ReadBuf(buf: Bytes) returns (r: Result<Bytes, Error>)
      requires NonEmptyChunks(chunks)
      requires |buf| < LENGTH_PREFIX + MAX_FRAME_BYTES
      modifies this
      ensures NonEmptyChunks(chunks)
      ensures r.Err? ==> chunks == old(chunks) == [] && r.error == fault
      ensures r.Ok? ==> old(chunks) != [] && r.value == buf + old(chunks)[0] && chunks == old(chunks)[1..]
    {
      if chunks == [] {
        return Err(fault);
      }
      r := Ok(buf + chunks[0]);
      chunks := chunks[1..];
    }
  }

  method WriteFrame(w: Sink, payload: Bytes) returns (r: Result<(), Error>)
    modifies w
    ensures r.Ok? <==> |payload| <= 16_777_216
    ensures r.Ok? ==> w.sent == old(w.sent) + Encode(payload)
    ensures r.Err? ==> r.error == FrameTooLarge(|payload|, MAX_FRAME_BYTES) && w.sent == old(w.sent)
  {
    if |payload| > MAX_FRAME_BYTES {
      return Err(FrameTooLarge(|payload|, MAX_FRAME_BYTES));
    }
    w.sent := w.sent + ToLe(|payload|);
    w.sent := w.sent + payload;
    assert w.sent == old(w.sent) + Encode(payload);
    return Ok(());
  }

  class FrameReader {
    var buf: Bytes

    constructor ()
      ensures buf == []
    {
      buf := [];
    }

    /** The bytes not yet handed to a caller: buffered here or still to arrive. */
    ghost function Undelivered(r: Source): Bytes
      reads this, r
    {
      buf + Flatten(r.chunks)
    }

    /** The outcome depends on the byte stream alone, never on its chunking. */
    method Next(r: Source) returns (res: Result<Bytes, Error>)
      requires NonEmptyChunks(r.chunks)
      modifies this, r
      ensures NonEmptyChunks(r.chunks)
      ensures match Scan(old(Undelivered(r)))
              case Frame(payload, rest) => res == Ok(payload) && Undelivered(r) == rest
              case Oversize(n) => res == Err(FrameTooLarge(n, MAX_FRAME_BYTES)) && Undelivered(r) == old(Undelivered(r))
              case Incomplete => res == Err(r.fault) && Undelivered(r) == old(Undelivered(r))
    {
      ghost var all := Undelivered(r);
      while true
        invariant NonEmptyChunks(r.chunks)
        invariant Undelivered(r) == all
        decreases |r.chunks|
      {
        if |buf| >= LENGTH_PREFIX {
          ScanPrefix(buf, Flatten(r.chunks));
          var declared := FromLe(buf[..LENGTH_PREFIX]);
          if declared > MAX_FRAME_BYTES {
            return Err(FrameTooLarge(declared, MAX_FRAME_BYTES));
          }
          if |buf| >= LENGTH_PREFIX + declared {
            var tail := buf[LENGTH_PREFIX..];
            var frame := tail[..declared];
            buf := tail[declared..];
            assert frame == old(buf + Flatten(r.chunks))[LENGTH_PREFIX..LENGTH_PREFIX + declared];
            return Ok(frame);
          }
        }
        var read := r.ReadBuf(buf);
        if read.Err? {
          return Err(read.error);
        }
        buf := read.value;
      }
    }
  }

  /** A front that is complete in the bytes at hand is the front of the stream. */
  lemma ScanPrefix(s: Bytes, later: Bytes)
    ensures Scan(s).Oversize? ==> Scan(s + later) == Scan(s)
    ensures Scan(s).Frame? ==> Scan(s + later) == Frame(Scan(s).payload, Scan(s).rest + later)
  {
    if |s| >= LENGTH_PREFIX {
      assert (s + later)[..LENGTH_PREFIX] == s[..LENGTH_PREFIX];
      var declared := FromLe(s[..LENGTH_PREFIX]);
      if |s| >= LENGTH_PREFIX + declared {
        assert (s + later)[LENGTH_PREFIX..LENGTH_PREFIX + declared] == s[LENGTH_PREFIX..LENGTH_PREFIX + declared];
        assert (s + later)[LENGTH_PREFIX + declared..] == s[LENGTH_PREFIX + declared..] + later;
      }
    }
  }

  /** `frames` are out already and `rest` holds the remaining ones. */
  predicate Splits(all: Decoded, frames: seq<Bytes>, rest: Bytes, fault: Error) {
    var more := Frames(rest, fault);
    all == Decoded(frames + more.frames, more.end)
  }

  lemma SplitsNext(all: Decoded, frames: seq<Bytes>, s: Bytes, fault: Error)
    requires Splits(all, frames, s, fault)
    ensures Scan(s).Frame? ==> Splits(all, frames + [Scan(s).payload], Scan(s).rest, fault)
    ensures Scan(s).Oversize? ==> all == Decoded(frames, FrameTooLarge(Scan(s).declared, MAX_FRAME_BYTES))
    ensures Scan(s).Incomplete? ==> all == Decoded(frames, fault)
  {
    if Scan(s).Frame? {
      var more := Frames(Scan(s).rest, fault).frames;
      assert frames + ([Scan(s).payload] + more) == (frames + [Scan(s).payload]) + more;
    } else {
      assert frames + [] == frames;
    }
  }

  /** The receive loop of a session: frames until the first error. */
  method ReadAll(r: Source) returns (frames: seq<Bytes>, end: Error)
    requires NonEmptyChunks(r.chunks)
    modifies r
    ensures Decoded(frames, end) == Frames(Flatten(old(r.chunks)), r.fault)
  {
    frames := [];
    var reader := new FrameReader();
    ghost var all := Frames(Flatten(r.chunks), r.fault);
    assert reader.Undelivered(r) == Flatten(r.chunks) && [] + all.frames == all.frames;
    while true
      invariant NonEmptyChunks(r.chunks)
      invariant fresh(reader)
      invariant Splits(all, frames, reader.Undelivered(r), r.fault)
      decreases |reader.Undelivered(r)|
    {
      SplitsNext(all, frames, reader.Undelivered(r), r.fault);
      var next := reader.Next(r);
      if next.Err? {
        return frames, next.error;
      }
      frames := frames + [next.value];
    }
  }

  // ---- round trip -------------------------------------------------------

  lemma ScanEncoded(payload: Bytes, later: Bytes)
    requires |payload| <= MAX_FRAME_BYTES
    ensures Scan(Encode(payload) + later) == Frame(payload, later)
  {
    var s := Encode(payload) + later;
    assert s[..LENGTH_PREFIX] == ToLe(|payload|);
    LeRoundTrip(|payload|);
    assert s[LENGTH_PREFIX..LENGTH_PREFIX + |payload|] == payload;
    assert s[LENGTH_PREFIX + |payload|..] == later;
  }

  /** The frames of `later`, after those of `payloads`. */
  function After(payloads: seq<Bytes>, later: Decoded): Decoded {
    Decoded(payloads + later.frames, later.end)
  }

  lemma FramesStep(payload: Bytes, later: Bytes, fault: Error)
    requires |payload| <= MAX_FRAME_BYTES
    ensures Frames(Encode(payload) + later, fault) == After([payload], Frames(later, fault))
  {
    ScanEncoded(payload, later);
  }

  /** Every list of payloads within the cap is read back in order, whatever
      follows it; the frames and the ending of the rest come after. */
  lemma {:induction false} RoundTrip(payloads: seq<Bytes>, later: Bytes, fault: Error)
    requires Sendable(payloads)
    ensures Frames(EncodeAll(payloads) + later, fault) == After(payloads, Frames(later, fault))
  {
    if payloads == [] {
      assert EncodeAll(payloads) + later == later;
    } else {
      var tail := EncodeAll(payloads[1..]) + later;
      RoundTrip(payloads[1..], later, fault);
      FramesStep(payloads[0], tail, fault);
      EncodeAllStep(payloads, later);
      AfterStep(payloads, Frames(later, fault));
    }
  }

  lemma EncodeAllStep(payloads: seq<Bytes>, later: Bytes)
    requires payloads != [] && Sendable(payloads)
    ensures EncodeAll(payloads) + later == Encode(payloads[0]) + (EncodeAll(payloads[1..]) + later)
  {
  }

  lemma AfterStep(payloads: seq<Bytes>, later: Decoded)
    requires payloads != []
    ensures After([payloads[0]], After(payloads[1..], later)) == After(payloads, later)
  {
    assert [payloads[0]] + (payloads[1..] + later.frames) == payloads + later.frames;
  }

  /** A stream that stops cleanly, mid-header or mid-payload yields the whole
      frames and then the stream's own ending. */
  lemma CutStream(payloads: seq<Bytes>, cut: Bytes, fault: Error)
    requires Sendable(payloads) && Scan(cut).Incomplete?
    ensures Frames(EncodeAll(payloads) + cut, fault) == Decoded(payloads, fault)
  {
    RoundTrip(payloads, cut, fault);
    assert payloads + [] == payloads;
  }

  /** A hostile header is reported, before its payload arrives, after exactly
      the frames that precede it. */
  lemma HostileHeader(payloads: seq<Bytes>, declared: nat, junk: Bytes, fault: Error)
    requires Sendable(payloads) && MAX_FRAME_BYTES < declared < 0x1_0000_0000
    ensures Frames(EncodeAll(payloads) + (ToLe(declared) + junk), fault)
         == Decoded(payloads, FrameTooLarge(declared, MAX_FRAME_BYTES))
  {
    var tail := ToLe(declared) + junk;
    assert tail[..LENGTH_PREFIX] == ToLe(declared);
    LeRoundTrip(declared);
    RoundTrip(payloads, tail, fault);
    assert payloads + [] == payloads;
  }
}
