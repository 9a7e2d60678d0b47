/** The payload streams of a file transfer (crates/daemon/src/device.rs): the
    sender's read-and-write loop, the receiver's read-and-stage loop, the header
    that carries the size between them, and the two together. */
module Streaming {
  import opened Prelude
  import opened FileNames
  import opened TransferEngine
  import opened ReceiveEngine

  const PAYLOAD_CHUNK_SIZE: nat := 4096

  datatype StreamError = Cancelled | UnexpectedEof | Engine(error: Error)

  // ---- the announced size ------------------------------------------------------

  /** The share header: `payloadSize` is an i64, absent for an empty file. */
  datatype Header = Header(fileName: string, payloadSize: Option<int>)

  /** `size as i64`. */
  function AsI64(size: u64): int {
    if size <= I64_MAX then size else size - U64_RANGE
  }

  function MakeHeader(fileName: string, size: u64): Header {
    Header(fileName, if size == 0 then None else Some(AsI64(size)))
  }

  /** What the receiver takes from a header: a negative size means unknown. */
  function AnnouncedSize(h: Header): u64
    requires h.payloadSize.Some? ==> h.payloadSize.value <= I64_MAX
  {
    var announced := h.payloadSize.GetOr(0);
    if announced < 0 then UNKNOWN_SIZE else announced
  }

  /** The receiver learns the size exactly up to 2^63 - 1, and "unknown" above. */
  lemma SizeTravels(fileName: string, size: u64)
    ensures AnnouncedSize(MakeHeader(fileName, size)) == if size <= I64_MAX then size else UNKNOWN_SIZE
  {
  }

  // ---- progress reports -----------------------------------------------------------

  /** Strictly increasing byte counts, the last of them the whole `bound`. */
  ghost predicate Progressing(progress: seq<nat>, bound: nat) {
    && (forall i :: 0 <= i < |progress| ==> 0 < progress[i] <= bound)
    && (forall i, j :: 0 <= i < j < |progress| ==> progress[i] < progress[j])
    && bound == if progress == [] then 0 else progress[|progress| - 1]
  }

  /** A loop stops for the cancel flag exactly at the turn that finds it raised; every
      turn before it has made its report. */
  predicate HeedsCancel(cancelAfter: Option<nat>, reports: nat, cancelled: bool) {
    && (cancelled ==> cancelAfter == Some(reports))
    && (!cancelled && cancelAfter.Some? ==> reports <= cancelAfter.value)
  }

  // ---- the sender -------------------------------------------------------------------

  /** An open file; a read may be short but is empty only at the end. */
  class File {
    const data: Bytes
    var pos: nat

    constructor (data: Bytes)
      ensures this.data == data && pos == 0
    {
      this.data := data;
      pos := 0;
    }

    method Read(max: nat) returns (chunk: Bytes)
      requires pos <= |data| && max > 0
      modifies this
      ensures old(pos) <= pos <= |data| && pos <= old(pos) + max
      ensures chunk == data[old(pos)..pos]
      ensures chunk == [] ==> pos == |data|
    {
      var n: nat :| n <= max && n <= |data| - pos && (n == 0 ==> pos == |data|);
      chunk := data[pos..pos + n];
      pos := pos + n;
    }
  }

  /** `cancelAfter` is the number of loop turns after which the cancel flag is up. */
  method StreamOutgoing(file: File, size: u64, out: Sink, cancelAfter: Option<nat>)
    returns (r: Result<(), StreamError>, progress: seq<nat>)
    requires file.pos == 0
    modifies file, out
    ensures file.pos <= |file.data| && out.sent == old(out.sent) + file.data[..file.pos]
    ensures cancelAfter == None ==> r.Ok?
    ensures r.Ok? ==> file.pos == |file.data| || size <= file.pos <= size + 4096
    ensures Progressing(progress, file.pos)
    ensures (r.Err? ==> r.error == Cancelled) && HeedsCancel(cancelAfter, |progress|, r.Err?)
  {
    progress := [];
    var done: nat := 0;
    var turns: nat := 0;
    while true
      invariant done == file.pos <= |file.data|
      invariant out.sent == old(out.sent) + file.data[..done]
      invariant done == 0 || done < size
      invariant Progressing(progress, done) && turns == |progress|
      invariant cancelAfter.Some? ==> turns <= cancelAfter.value
      decreases |file.data| - file.pos
    {
      if cancelAfter == Some(turns) {
        return Err(Cancelled), progress;
      }
      turns := turns + 1;
      var chunk := file.Read(PAYLOAD_CHUNK_SIZE);
      if chunk == [] {
        break;
      }
      out.sent := out.sent + chunk;
      assert file.data[..done] + chunk == file.data[..file.pos];
      done := done + |chunk|;
      ProgressGrows(progress, done - |chunk|, done);
      progress := progress + [done];
      if done >= size {
        break;
      }
    }
    return Ok(()), progress;
  }

  // ---- the receiver -------------------------------------------------------------------

  /** The data connection: the bytes that will arrive, in whatever pieces. */
  class PayloadStream {
    var chunks: seq<Bytes>

    constructor (chunks: seq<Bytes>)
      ensures this.chunks == chunks
    {
      this.chunks := chunks;
    }

    /** One read of at most `max` bytes; empty only at end of stream. */
    method ReadSome(max: nat) returns (got: Bytes)
      requires NonEmptyChunks(chunks) && max > 0
      modifies this
      ensures NonEmptyChunks(chunks) && |got| <= max
      ensures got + Flatten(chunks) == Flatten(old(chunks))
      ensures got == [] <==> old(chunks) == []
    {
      if chunks == [] {
        return [];
      }
      var head, tail := chunks[0], chunks[1..];
      if |head| <= max {
        got := head;
        chunks := tail;
      } else {
        got := head[..max];
        chunks := [head[max..]] + tail;
        assert chunks[1..] == tail;
        assert got + (head[max..] + Flatten(tail)) == head + Flatten(tail);
      }
    }

    /** Exactly `n` bytes, or an error when the stream ends before. */
    method ReadExact(n: nat) returns (r: Result<Bytes, StreamError>)
      requires NonEmptyChunks(chunks)
      modifies this
      ensures NonEmptyChunks(chunks)
      ensures r.Ok? <==> n <= |Flatten(old(chunks))|
      ensures r.Ok? ==> |r.value| == n && r.value + Flatten(chunks) == Flatten(old(chunks))
      ensures r.Err? ==> r.error == UnexpectedEof
    {
      var got: Bytes := [];
      while |got| < n
        invariant |got| <= n && NonEmptyChunks(chunks)
        invariant got + Flatten(chunks) == Flatten(old(chunks))
        decreases n - |got|
      {
        var piece := ReadSome(n - |got|);
        if piece == [] {
          return Err(UnexpectedEof);
        }
        got := got + piece;
      }
      return Ok(got);
    }
  }

  /** The engine in the middle of a transfer that has staged `bytes`. */
  ghost function Staging(s: State, id: Id, fileName: string, size: u64, bytes: Bytes): State {
    var part := Sanitized(fileName) + PART_SUFFIX;
    State(s.disk[part := bytes],
          s.incoming[id := Incoming(size, Sanitized(fileName), part, |bytes| % U64_RANGE)])
  }

  /** The engine after a complete transfer of `bytes`: one more file. */
  ghost function Landed(s: State, fileName: string, bytes: Bytes): State {
    var to := Destination(s.disk[Sanitized(fileName) + PART_SUFFIX := bytes], Sanitized(fileName));
    State(s.disk[to := bytes], s.incoming)
  }

  /** A chunk that respects a known size, or any chunk of an unknown one, is always
      accepted: the oversize and overflow errors cannot happen here. */
  lemma ChunkAccepted(s: State, id: Id, fileName: string, size: u64, bytes: Bytes, chunk: Bytes)
    requires |chunk| <= CHUNK_SIZE
    requires size == UNKNOWN_SIZE || (size <= I64_MAX && |bytes| + |chunk| <= size)
    ensures var o := Write(Staging(s, id, fileName, size, bytes), id, chunk);
            o.result.Ok? && o.state == Staging(s, id, fileName, size, bytes + chunk)
  {
    WrapAdd(|bytes|, |chunk|);
    var part := Sanitized(fileName) + PART_SUFFIX;
    var s1 := Staging(s, id, fileName, size, bytes);
    assert s1.disk[part] == bytes;
    assert s1.disk[part := bytes + chunk] == s.disk[part := bytes + chunk];
    assert s1.incoming[id := s1.incoming[id].(received := (|bytes| + |chunk|) % U64_RANGE)]
        == s.incoming[id := Incoming(size, Sanitized(fileName), part, (|bytes| + |chunk|) % U64_RANGE)];
  }

  /** Finishing with all the bytes lands the file, and only that. */
  lemma FinishLands(s: State, id: Id, fileName: string, size: u64, bytes: Bytes)
    requires id !in s.incoming && Sanitized(fileName) + PART_SUFFIX !in s.disk
    requires size == UNKNOWN_SIZE || (size <= I64_MAX && |bytes| == size)
    ensures var o := Finish(Staging(s, id, fileName, size, bytes), id);
            o.result.Ok? && o.state == Landed(s, fileName, bytes)
    ensures Finish(Staging(s, id, fileName, size, bytes), id).result.value
         == Destination(s.disk[Sanitized(fileName) + PART_SUFFIX := bytes], Sanitized(fileName))
  {
    var s1 := Staging(s, id, fileName, size, bytes);
    var part := Sanitized(fileName) + PART_SUFFIX;
    assert s1.disk - {part} == s.disk;
    assert s1.incoming - {id} == s.incoming;
  }

  /** Aborting undoes everything the transfer staged. */
  lemma AbortRestores(s: State, id: Id, fileName: string, size: u64, bytes: Bytes)
    requires id !in s.incoming && Sanitized(fileName) + PART_SUFFIX !in s.disk
    ensures Abort(Staging(s, id, fileName, size, bytes), id).state == s
  {
    var s1 := Staging(s, id, fileName, size, bytes);
    assert s1.disk - {Sanitized(fileName) + PART_SUFFIX} == s.disk;
    assert s1.incoming - {id} == s.incoming;
  }

  /** The bytes a receiver must end up with. */
  function Wanted(size: u64, stream: Bytes): Bytes
    requires size == UNKNOWN_SIZE || size <= |stream|
  {
    if size == UNKNOWN_SIZE then stream else stream[..size]
  }

  /** The next piece for the engine: empty when there is no more to read. */
  method NextChunk(payload: PayloadStream, size: u64, done: nat) returns (r: Result<Bytes, StreamError>)
    requires NonEmptyChunks(payload.chunks) && (size != UNKNOWN_SIZE ==> done <= size)
    modifies payload
    ensures NonEmptyChunks(payload.chunks)
    ensures r.Ok? ==> |r.value| <= CHUNK_SIZE && r.value + Flatten(payload.chunks) == Flatten(old(payload.chunks))
    ensures r.Ok? && size != UNKNOWN_SIZE ==> done + |r.value| <= size && (r.value == [] <==> done == size)
    ensures r.Ok? && size == UNKNOWN_SIZE ==> (r.value == [] <==> Flatten(old(payload.chunks)) == [])
    ensures r.Err? ==> r.error == UnexpectedEof && size != UNKNOWN_SIZE && done + |Flatten(old(payload.chunks))| < size
  {
    if size == UNKNOWN_SIZE {
      var chunk := payload.ReadSome(CHUNK_SIZE);
      return Ok(chunk);
    }
    var remaining := size - done;
    var want := if remaining < CHUNK_SIZE then remaining else CHUNK_SIZE;
    if want == 0 {
      return Ok([]);
    }
    r := payload.ReadExact(want);
  }

  method StageChunk(engine: Engine, id: Id, ghost fileName: string, ghost size: u64, chunk: Bytes, ghost start: State, ghost staged: Bytes)
    requires |chunk| <= CHUNK_SIZE
    requires size == UNKNOWN_SIZE || (size <= I64_MAX && |staged| + |chunk| <= size)
    requires engine.View() == Staging(start, id, fileName, size, staged)
    modifies engine, engine.fs
    ensures engine.View() == Staging(start, id, fileName, size, staged + chunk)
  {
    ChunkAccepted(start, id, fileName, size, staged, chunk);
    var _ := engine.WriteChunk(id, chunk);
  }

  /** One turn of the loop: read what the size still allows, and stage it. An empty chunk
      is the end of the stream, and nothing is staged. */
  method Pump(engine: Engine, id: Id, ghost fileName: string, size: u64, payload: PayloadStream, done: nat,
              ghost start: State, ghost staged: Bytes)
    returns (r: Result<Bytes, StreamError>)
    requires size == UNKNOWN_SIZE || (size <= I64_MAX && done <= size)
    requires NonEmptyChunks(payload.chunks) && done == |staged|
    requires engine.View() == Staging(start, id, fileName, size, staged)
    modifies engine, engine.fs, payload
    ensures NonEmptyChunks(payload.chunks)
    ensures r.Ok? ==> engine.View() == Staging(start, id, fileName, size, staged + r.value)
    ensures r.Ok? ==> (staged + r.value) + Flatten(payload.chunks) == staged + Flatten(old(payload.chunks))
    ensures r.Ok? && size != UNKNOWN_SIZE ==> done + |r.value| <= size && (r.value == [] <==> done == size)
    ensures r.Ok? && size == UNKNOWN_SIZE && r.value == [] ==> Flatten(payload.chunks) == []
    ensures r.Err? ==> engine.View() == old(engine.View()) && r.error == UnexpectedEof
                       && size != UNKNOWN_SIZE && done + |Flatten(old(payload.chunks))| < size
  {
    r := NextChunk(payload, size, done);
    if r.Ok? {
      Regroup(staged, r.value, Flatten(payload.chunks));
      if r.value != [] {
        StageChunk(engine, id, fileName, size, r.value, start, staged);
      } else {
        assert staged + r.value == staged;
      }
    }
  }

  method Discard(engine: Engine, id: Id, ghost fileName: string, ghost size: u64, ghost start: State, ghost staged: Bytes)
    requires id !in start.incoming && Sanitized(fileName) + PART_SUFFIX !in start.disk
    requires engine.View() == Staging(start, id, fileName, size, staged)
    modifies engine, engine.fs
    ensures engine.View() == start
  {
    AbortRestores(start, id, fileName, size, staged);
    var _ := engine.AbortReceive(id);
  }

  /** The staging loop, up to its end, an early end of the stream, or the cancel flag. */
  method StageLoop(engine: Engine, id: Id, ghost fileName: string, size: u64, payload: PayloadStream,
                   cancelAfter: Option<nat>, ghost start: State)
    returns (r: Result<(), StreamError>, progress: seq<nat>, ghost staged: Bytes)
    requires size == UNKNOWN_SIZE || size <= I64_MAX
    requires NonEmptyChunks(payload.chunks) && engine.View() == Staging(start, id, fileName, size, [])
    modifies engine, engine.fs, payload
    ensures engine.View() == Staging(start, id, fileName, size, staged)
    ensures r.Ok? ==> (size == UNKNOWN_SIZE || size <= |Flatten(old(payload.chunks))|)
                      && staged == Wanted(size, Flatten(old(payload.chunks)))
    ensures r.Err? && r.error != Cancelled ==>
      r.error == UnexpectedEof && size != UNKNOWN_SIZE && |Flatten(old(payload.chunks))| < size
    ensures r.Ok? || r.error == Cancelled ==> HeedsCancel(cancelAfter, |progress|, r.Err?)
    ensures Progressing(progress, |staged|) && (size != UNKNOWN_SIZE ==> |staged| <= size)
  {
    progress, staged := [], [];
    var turns: nat, done: nat := 0, 0;
    ghost var all := Flatten(payload.chunks);
    while cancelAfter != Some(turns)
      invariant NonEmptyChunks(payload.chunks) && all == staged + Flatten(payload.chunks)
      invariant done == |staged| && (size != UNKNOWN_SIZE ==> done <= size)
      invariant engine.View() == Staging(start, id, fileName, size, staged)
      invariant Progressing(progress, done) && turns == |progress|
      invariant cancelAfter.Some? ==> turns <= cancelAfter.value
      decreases |all| - done
    {
      turns := turns + 1;
      var next := Pump(engine, id, fileName, size, payload, done, start, staged);
      if next.Err? {
        return Err(next.error), progress, staged;
      }
      staged := staged + next.value;
      if next.value == [] {
        AllStaged(size, all, staged, Flatten(payload.chunks));
        return Ok(()), progress, staged;
      }
      done := done + |next.value|;
      ProgressGrows(progress, done - |next.value|, done);
      progress := progress + [done];
      if size != UNKNOWN_SIZE && done >= size {
        AllStaged(size, all, staged, Flatten(payload.chunks));
        return Ok(()), progress, staged;
      }
    }
    r := Err(Cancelled);
  }

  /** On success the part file holds exactly the wanted bytes; a cancelled transfer
      leaves no trace; and the only other failure is a stream that ends before the
      announced size. */
  method StageStream(engine: Engine, id: Id, ghost fileName: string, size: u64, payload: PayloadStream,
                     cancelAfter: Option<nat>, ghost start: State)
    returns (r: Result<(), StreamError>, progress: seq<nat>, ghost staged: Bytes)
    requires size == UNKNOWN_SIZE || size <= I64_MAX
    requires NonEmptyChunks(payload.chunks)
    requires id !in start.incoming && Sanitized(fileName) + PART_SUFFIX !in start.disk
    requires engine.View() == Staging(start, id, fileName, size, [])
    modifies engine, engine.fs, payload
    ensures r.Ok? ==> (size == UNKNOWN_SIZE || size <= |Flatten(old(payload.chunks))|)
                      && staged == Wanted(size, Flatten(old(payload.chunks)))
    ensures r.Err? && r.error != Cancelled ==>
      r.error == UnexpectedEof && size != UNKNOWN_SIZE && |Flatten(old(payload.chunks))| < size
    ensures engine.View() == if r == Err(Cancelled) then start else Staging(start, id, fileName, size, staged)
    ensures r.Ok? || r.error == Cancelled ==> HeedsCancel(cancelAfter, |progress|, r.Err?)
    ensures Progressing(progress, |staged|) && (size != UNKNOWN_SIZE ==> |staged| <= size)
  {
    r, progress, staged := StageLoop(engine, id, fileName, size, payload, cancelAfter, start);
    if r == Err(Cancelled) {
      Discard(engine, id, fileName, size, start, staged);
    }
  }

  lemma AllStaged(size: u64, all: Bytes, staged: Bytes, rest: Bytes)
    requires all == staged + rest && (if size == UNKNOWN_SIZE then rest == [] else |staged| == size)
    ensures (size == UNKNOWN_SIZE || size <= |all|) && staged == Wanted(size, all)
  {
  }

  lemma ProgressGrows(progress: seq<nat>, was: nat, now: nat)
    requires Progressing(progress, was) && was < now
    ensures Progressing(progress + [now], now)
  {
  }

  lemma Regroup(a: Bytes, b: Bytes, c: Bytes)
    ensures a + (b + c) == (a + b) + c
  {
  }

  /** A receive can begin: the id is new and no part file is in the way. */
  predicate Startable(s: State, id: Id, fileName: string) {
    id !in s.incoming && Sanitized(fileName) + PART_SUFFIX !in s.disk
  }

  /** What arrives for a header: the stream, or nothing without a data connection. */
  ghost function Arriving(payload: PayloadStream?): Bytes
    reads payload
  {
    if payload == null then [] else Flatten(payload.chunks)
  }

  /** Receive one announced file. The engine's size errors do not occur, except that
      a header with a size but no data connection is incomplete. */
  method ReceiveStream(engine: Engine, id: Id, fileName: string, size: u64, payload: PayloadStream?, cancelAfter: Option<nat>)
    returns (r: Result<string, StreamError>, progress: seq<nat>, ghost staged: Bytes)
    requires size == UNKNOWN_SIZE || size <= I64_MAX
    requires payload != null ==> NonEmptyChunks(payload.chunks)
    modifies engine, engine.fs, payload
    ensures r.Ok? ==> Startable(old(engine.View()), id, fileName) && (size == UNKNOWN_SIZE || size <= |old(Arriving(payload))|)
    ensures r.Ok? ==> var bytes := Wanted(size, old(Arriving(payload)));
                      engine.View() == Landed(old(engine.View()), fileName, bytes)
                      && r.value == Destination(old(engine.View()).disk[Sanitized(fileName) + PART_SUFFIX := bytes], Sanitized(fileName))
    ensures r.Err? ==> engine.View() == old(engine.View())
                       || (Startable(old(engine.View()), id, fileName) && engine.View() == Staging(old(engine.View()), id, fileName, size, staged))
    ensures Startable(old(engine.View()), id, fileName) && cancelAfter == None && (size == UNKNOWN_SIZE || size <= |old(Arriving(payload))|) ==> r.Ok?
    ensures Progressing(progress, |staged|) && (size != UNKNOWN_SIZE ==> |staged| <= size)
    ensures r.Ok? || r == Err(Cancelled) ==> HeedsCancel(cancelAfter, |progress|, r.Err?)
    ensures !Startable(old(engine.View()), id, fileName) ==>
      r == Err(StreamError.Engine(if id in old(engine.View()).incoming then AlreadyActive else PartExists))
    ensures Startable(old(engine.View()), id, fileName) && r.Err? ==>
      r.error == Cancelled || (r.error == (if payload == null then StreamError.Engine(Incomplete) else UnexpectedEof))
  {
    ghost var start := engine.View();
    progress, staged := [], [];
    var started := engine.StartReceive(id, fileName, size);
    if started.Err? {
      return Err(Engine(started.error)), progress, staged;
    }
    if payload != null {
      var streamed;
      streamed, progress, staged := StageStream(engine, id, fileName, size, payload, cancelAfter, start);
      if streamed.Err? {
        return Err(streamed.error), progress, staged;
      }
    } else if size != UNKNOWN_SIZE && size != 0 {
      var refused := engine.FinishReceive(id);
      return Err(Engine(refused.error)), progress, staged;
    }
    FinishLands(start, id, fileName, size, staged);
    var finished := engine.FinishReceive(id);
    return Ok(finished.value), progress, staged;
  }

  /** The whole receive task with the manager's sweep after a failure: a transfer
      that fails leaves the directory and the engine exactly as they were. */
  method ReceiveTask(engine: Engine, id: Id, fileName: string, size: u64, payload: PayloadStream?, cancelAfter: Option<nat>)
    returns (r: Result<string, StreamError>)
    requires size == UNKNOWN_SIZE || size <= I64_MAX
    requires payload != null ==> NonEmptyChunks(payload.chunks)
    requires id !in engine.incoming
    modifies engine, engine.fs, payload
    ensures r.Err? ==> engine.View() == old(engine.View())
    ensures r.Ok? ==> (size == UNKNOWN_SIZE || size <= |old(Arriving(payload))|)
                      && engine.View() == Landed(old(engine.View()), fileName, Wanted(size, old(Arriving(payload))))
  {
    ghost var start := engine.View();
    ghost var staged;
    var progress;
    r, progress, staged := ReceiveStream(engine, id, fileName, size, payload, cancelAfter);
    if r.Err? {
      if Startable(start, id, fileName) {
        AbortRestores(start, id, fileName, size, staged);
      }
      var _ := engine.AbortReceive(id);
    }
  }

  // ---- end to end --------------------------------------------------------------------

  /** The network delivers the bytes in order, in pieces of its own choosing. */
  method Network(sent: Bytes) returns (chunks: seq<Bytes>)
    ensures NonEmptyChunks(chunks) && Flatten(chunks) == sent
  {
    chunks := [];
    var left := sent;
    while left != []
      invariant NonEmptyChunks(chunks) && Flatten(chunks) + left == sent
      decreases |left|
    {
      var n: nat :| 1 <= n <= |left|;
      FlattenAppend(chunks, [left[..n]]);
      assert Flatten([left[..n]]) == left[..n];
      Regroup(Flatten(chunks), left[..n], left[n..]);
      assert left[..n] + left[n..] == left;
      chunks := chunks + [left[..n]];
      left := left[n..];
    }
  }

  lemma LandsFirstFree(disk: Disk, name: string)
    ensures name !in disk ==> Destination(disk, name) == name
    ensures HasRoom(disk, name) ==> exists n :: FirstFree(disk, name, n) && Destination(disk, name) == Candidate(name, n)
  {
    if name !in disk {
      assert Candidate(name, 0) == name && FreeAt(disk, name, 0);
    }
    if HasRoom(disk, name) {
      var _ := FirstFreeIsTaken(disk, name);
    }
  }

  /** A file sent by one daemon and received by another: whatever the short reads,
      the writes and the re-chunking, the received file is the source file. */
  method EndToEnd(engine: Engine, id: Id, fileName: string, source: Bytes) returns (r: Result<string, StreamError>)
    requires |source| < U64_RANGE
    requires Startable(engine.View(), id, fileName)
    modifies engine, engine.fs
    ensures r.Ok? && r.value in engine.fs.files && engine.fs.files[r.value] == source
    ensures engine.View() == Landed(old(engine.View()), fileName, source)
    ensures var name := Sanitized(fileName); var disk := old(engine.fs.files)[name + PART_SUFFIX := source];
      && (name !in old(engine.fs.files) ==> r.value == name)
      && (HasRoom(disk, name) ==> exists n :: FirstFree(disk, name, n) && r.value == Candidate(name, n))
  {
    var size: u64 := |source|;
    var header := MakeHeader(fileName, size);
    SizeTravels(fileName, size);
    var announced := AnnouncedSize(header);
    var payload: PayloadStream? := null;
    if size != 0 {
      var file := new File(source);
      var out := new Sink();
      var sent, _ := StreamOutgoing(file, size, out, None);
      assert out.sent == source;
      var chunks := Network(out.sent);
      payload := new PayloadStream(chunks);
    }
    assert Arriving(payload) == source;
    assert announced <= |source| || announced == UNKNOWN_SIZE;
    assert announced != UNKNOWN_SIZE ==> source[..announced] == source;
    ghost var start := engine.View();
    ghost var staged;
    var progress;
    r, progress, staged := ReceiveStream(engine, id, header.fileName, announced, payload, None);
    LandsFirstFree(start.disk[Sanitized(fileName) + PART_SUFFIX := source], Sanitized(fileName));
  }
}
