/** Newline-delimited packet framing (crates/protocol/src/packet.rs). A packet's
    JSON text is taken as given: a byte string without a raw newline, as compact
    JSON is (section 7 of RFC 8259 escapes control characters in strings). */
module PacketFraming {
  import opened Prelude

  const MAX_PACKET_LEN: nat := 512 * 1024

  datatype Error = ClosedBeforeFrame | Truncated | TooLong | Io

  // ---- the specification: split the stream at its first newline ---------

  ghost predicate NoNewline(s: Bytes) {
    forall k :: 0 <= k < |s| ==> s[k] != NEWLINE
  }

  /** Position of the first newline from `k` on, or the length if there is none. */
  function NewlineFrom(s: Bytes, k: nat): (i: nat)
    requires k <= |s|
    ensures k <= i <= |s| && (i < |s| ==> s[i] == NEWLINE)
    ensures forall j :: k <= j < i ==> s[j] != NEWLINE
    decreases |s| - k
  {
    if k == |s| || s[k] == NEWLINE then k else NewlineFrom(s, k + 1)
  }

  function FirstNewline(s: Bytes): (i: nat)
    ensures i <= |s| && (i < |s| ==> s[i] == NEWLINE)
    ensures forall j :: 0 <= j < i ==> s[j] != NEWLINE
  {
    NewlineFrom(s, 0)
  }

  datatype Split = Line(text: Bytes, rest: Bytes) | Failed(error: Error)

  /** What a read must return for the stream `s`; `broken` says that the stream
      ends in an I/O error instead of an end of file. */
  function SplitLine(s: Bytes, broken: bool): Split {
    var i := FirstNewline(s);
    if i > MAX_PACKET_LEN then Failed(TooLong)
    else if i < |s| then Line(s[..i], s[i + 1..])
    else if broken then Failed(Io)
    else if s == [] then Failed(ClosedBeforeFrame)
    else Failed(Truncated)
  }

  /** A line is read exactly when a newline (byte 10) stands within the first 524,289
      bytes; a stream without one there fails, too long if it has that many bytes, and
      else by how it ends: in an error, before anything came, or cut off. */
  lemma SplitVerdict(s: Bytes, broken: bool)
    ensures forall i :: 0 <= i < |s| && i <= 524_288 && s[i] == 10 && 10 !in s[..i] ==> SplitLine(s, broken) == Line(s[..i], s[i + 1..])
    ensures |s| > 524_288 && 10 !in s[..524_289] ==> SplitLine(s, broken) == Failed(TooLong)
    ensures |s| <= 524_288 && 10 !in s ==>
      SplitLine(s, broken) == Failed(if broken then Io else if s == [] then ClosedBeforeFrame else Truncated)
  {
    forall i | 0 <= i < |s| && i <= 524_288 && s[i] == 10 && 10 !in s[..i]
      ensures SplitLine(s, broken) == Line(s[..i], s[i + 1..])
    {
      assert NoNewline(s[..i]);
      FirstNewlineIs(s, i);
    }
    if |s| > 524_288 && 10 !in s[..524_289] {
      assert forall j :: 0 <= j < 524_289 ==> s[..524_289][j] == s[j];
    }
  }

  lemma FirstNewlineIs(s: Bytes, i: nat)
    requires i < |s| && s[i] == NEWLINE && NoNewline(s[..i])
    ensures FirstNewline(s) == i
  {
  }

  lemma NewlinePastPrefix(a: Bytes, b: Bytes)
    requires NoNewline(a)
    ensures FirstNewline(a + b) == |a| + FirstNewline(b)
  {
    var i, j := FirstNewline(b), FirstNewline(a + b);
    assert i < |b| ==> (a + b)[|a| + i] == b[i];
    assert |a| <= j < |a + b| ==> (a + b)[j] == b[j - |a|];
  }

  /** A line that ends inside the chunk after `line`. */
  lemma FoundInChunk(line: Bytes, chunk: Bytes, later: Bytes, broken: bool)
    requires NoNewline(line) && FirstNewline(chunk) < |chunk|
    ensures var pos := FirstNewline(chunk);
            SplitLine(line + (chunk + later), broken)
            == if |line| + pos > MAX_PACKET_LEN then Failed(TooLong)
               else Line(line + chunk[..pos], chunk[pos + 1..] + later)
  {
    var pos := FirstNewline(chunk);
    NewlinePastPrefix(line, chunk + later);
    var s := line + (chunk + later);
    FirstNewlineIs(chunk + later, pos);
    assert s[..|line| + pos] == line + chunk[..pos];
    assert s[|line| + pos + 1..] == chunk[pos + 1..] + later;
  }

  /** A chunk without newline that no longer fits under the cap. */
  lemma FloodedChunk(line: Bytes, chunk: Bytes, later: Bytes, broken: bool)
    requires NoNewline(line) && NoNewline(chunk) && |line| + |chunk| > MAX_PACKET_LEN
    ensures SplitLine(line + (chunk + later), broken) == Failed(TooLong)
  {
    assert line + (chunk + later) == (line + chunk) + later;
    NewlinePastPrefix(line + chunk, later);
  }

  // ---- the buffered reader ----------------------------------------------

  /** A buffered reader: `fill_buf` shows the first of these chunks. */
  class BufReader {
    var chunks: seq<Bytes>
    const broken: bool

    constructor (chunks: seq<Bytes>, broken: bool)
      ensures this.chunks == chunks && this.broken == broken
    {
      this.chunks := chunks;
      this.broken := broken;
    }

    /** `held` is what the caller keeps while it asks for more: the cap. */
    method FillBuf(ghost held: nat) returns (r: Result<Bytes, Error>)
      requires NonEmptyChunks(chunks)
      requires held <= MAX_PACKET_LEN
      ensures chunks == [] ==> r == if broken then Err(Io) else Ok([])
      ensures chunks != [] ==> r == Ok(chunks[0])
    {
      if chunks == [] {
        return if broken then Err(Io) else Ok([]);
      }
      return Ok(chunks[0]);
    }

    method Consume(n: nat)
      requires NonEmptyChunks(chunks) && chunks != [] && n <= |chunks[0]|
      modifies this
      ensures NonEmptyChunks(chunks)
      ensures Flatten(chunks) == old(chunks)[0][n..] + Flatten(old(chunks)[1..])
    {
      var left := chunks[0][n..];
      chunks := if left == [] then chunks[1..] else [left] + chunks[1..];
      assert left != [] ==> chunks[1..] == old(chunks)[1..];
    }
  }

  /** `position` of a newline within one chunk. */
  method FindNewline(chunk: Bytes) returns (i: nat)
    ensures i == FirstNewline(chunk)
  {
    i := 0;
    while i < |chunk| && chunk[i] != NEWLINE
      invariant i <= |chunk| && forall j :: 0 <= j < i ==> chunk[j] != NEWLINE
    {
      i := i + 1;
    }
  }

  /** Reads one line: the result and the bytes consumed depend on the stream
      alone, never on how the transport chunked it. */
  method ReadFrame(r: BufReader) returns (res: Result<Bytes, Error>)
    requires NonEmptyChunks(r.chunks)
    modifies r
    ensures NonEmptyChunks(r.chunks)
    ensures match SplitLine(Flatten(old(r.chunks)), r.broken)
            case Line(text, rest) => res == Ok(text) && Flatten(r.chunks) == rest
            case Failed(error) => res == Err(error)
  {
    var line: Bytes := [];
    ghost var all := Flatten(r.chunks);
    while true
      invariant NonEmptyChunks(r.chunks)
      invariant all == line + Flatten(r.chunks)
      invariant NoNewline(line) && |line| <= MAX_PACKET_LEN
      decreases |Flatten(r.chunks)|
    {
      var filled := r.FillBuf(|line|);
      if r.chunks == [] {
        assert all == line;
      }
      if filled.Err? {
        return Err(filled.error);
      }
      var chunk := filled.value;
      if chunk == [] {
        return Err(if line == [] then ClosedBeforeFrame else Truncated);
      }
      ghost var later := Flatten(r.chunks[1..]);
      assert all == line + (chunk + later);
      var pos := FindNewline(chunk);
      if pos < |chunk| {
        FoundInChunk(line, chunk, later, r.broken);
        if |line| + pos > MAX_PACKET_LEN {
          return Err(TooLong);
        }
        line := line + chunk[..pos];
        r.Consume(pos + 1);
        return Ok(line);
      }
      if |line| + |chunk| > MAX_PACKET_LEN {
        FloodedChunk(line, chunk, later, r.broken);
        return Err(TooLong);
      }
      r.Consume(|chunk|);
      line := line + chunk;
      assert all == line + later;
    }
  }

  // ---- the encoder and the round trip -----------------------------------

  /** `write_to`: the whole frame, or nothing when the packet is too long. */
  method WritePacket(w: Sink, json: Bytes) returns (r: Result<(), Error>)
    modifies w
    ensures r.Ok? <==> |json| <= MAX_PACKET_LEN
    ensures r.Ok? ==> w.sent == old(w.sent) + Encode(json)
    ensures r.Err? ==> r.error == TooLong && w.sent == old(w.sent)
  {
    if |json| > MAX_PACKET_LEN {
      return Err(TooLong);
    }
    var frame := json;
    frame := frame + [NEWLINE];
    w.sent := w.sent + frame;
    return Ok(());
  }

  function Encode(json: Bytes): Bytes {
    json + [NEWLINE]
  }

  ghost predicate Packet(json: Bytes) {
    NoNewline(json) && |json| <= MAX_PACKET_LEN
  }

  function EncodeAll(packets: seq<Bytes>): Bytes {
    if packets == [] then [] else Encode(packets[0]) + EncodeAll(packets[1..])
  }

  datatype Lines = Lines(texts: seq<Bytes>, end: Error)

  /** Reading lines until the first error. */
  function AllLines(s: Bytes, broken: bool): Lines
    decreases |s|
  {
    match SplitLine(s, broken)
    case Line(text, rest) =>
      var more := AllLines(rest, broken);
      Lines([text] + more.texts, more.end)
    case Failed(error) => Lines([], error)
  }

  /** A frame is read back exactly when the packet is newline-free and within the
      cap; the encoder looks at the length alone, for compact JSON has no newline. */
  lemma FrameRoundTrip(json: Bytes, later: Bytes, broken: bool)
    ensures SplitLine(Encode(json) + later, broken) == Line(json, later) <==> Packet(json)
  {
    var s := Encode(json) + later;
    if Packet(json) {
      assert s[..|json|] == json && s[|json| + 1..] == later;
      FirstNewlineIs(s, |json|);
    }
  }

  /** The lines of `later`, after those of `packets`. */
  function After(packets: seq<Bytes>, later: Lines): Lines {
    Lines(packets + later.texts, later.end)
  }

  lemma LinesStep(packet: Bytes, later: Bytes, broken: bool)
    requires Packet(packet)
    ensures AllLines(Encode(packet) + later, broken) == After([packet], AllLines(later, broken))
  {
    FrameRoundTrip(packet, later, broken);
  }

  lemma {:induction false} PipelineRoundTrip(packets: seq<Bytes>, later: Bytes, broken: bool)
    requires forall i :: 0 <= i < |packets| ==> Packet(packets[i])
    ensures AllLines(EncodeAll(packets) + later, broken) == After(packets, AllLines(later, broken))
  {
    if packets == [] {
      assert EncodeAll(packets) + later == later;
    } else {
      var tail := EncodeAll(packets[1..]) + later;
      PipelineRoundTrip(packets[1..], later, broken);
      LinesStep(packets[0], tail, broken);
      EncodeAllStep(packets, later);
      AfterStep(packets, AllLines(later, broken));
    }
  }

  lemma EncodeAllStep(packets: seq<Bytes>, later: Bytes)
    requires packets != []
    ensures EncodeAll(packets) + later == Encode(packets[0]) + (EncodeAll(packets[1..]) + later)
  {
  }

  lemma AfterStep(packets: seq<Bytes>, later: Lines)
    requires packets != []
    ensures After([packets[0]], After(packets[1..], later)) == After(packets, later)
  {
    assert [packets[0]] + (packets[1..] + later.texts) == packets + later.texts;
  }
}
