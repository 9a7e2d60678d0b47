/** Inbound file-transfer staging (crates/daemon/src/transfer.rs) over an abstract
    save directory: a map from file name to content. */
module TransferEngine {
  import opened Prelude
  import opened FileNames

  type Id = string
  type Disk = map<string, Bytes>

  const CHUNK_SIZE: nat := 64 * 1024
  const U64_RANGE: nat := 0x1_0000_0000_0000_0000
  const I64_MAX: nat := 0x7fff_ffff_ffff_ffff
  const UNKNOWN_SIZE: nat := U64_RANGE - 1

  type u64 = x: nat | x < U64_RANGE

  datatype Error = AlreadyActive | PartExists | ChunkTooLarge | UnknownTransfer | Overflows | Incomplete | PartMissing

  datatype Incoming = Incoming(fileSize: u64, finalName: string, partName: string, received: u64)

  datatype State = State(disk: Disk, incoming: map<Id, Incoming>)

  /** The state after an operation, and what it returned. */
  datatype Out<T> = Out(state: State, result: Result<T, Error>)

  // ---- the operations, as functions of the state -----------------------------

  function Start(s: State, id: Id, fileName: string, fileSize: u64): Out<()> {
    var finalName := Sanitized(fileName);
    var partName := finalName + PART_SUFFIX;
    if id in s.incoming then Out(s, Err(AlreadyActive))
    else if partName in s.disk then Out(s, Err(PartExists))
    else Out(State(s.disk[partName := []], s.incoming[id := Incoming(fileSize, finalName, partName, 0)]), Ok(()))
  }

  /** The running total is a u64 and wraps. */
  function Write(s: State, id: Id, data: Bytes): Out<u64> {
    if |data| > CHUNK_SIZE then Out(s, Err(ChunkTooLarge))
    else if id !in s.incoming then Out(s, Err(UnknownTransfer))
    else
      var t := s.incoming[id];
      var total := (t.received + |data|) % U64_RANGE;
      if total > t.fileSize then Out(s, Err(Overflows))
      else if t.partName !in s.disk then Out(s, Err(PartMissing))
      else Out(State(s.disk[t.partName := s.disk[t.partName] + data], s.incoming[id := t.(received := total)]), Ok(total))
  }

  /** The first free candidate from the n-th on; the plain name when none is. */
  function FreeFrom(disk: Disk, name: string, n: nat): string
    requires n <= MAX_NAME_COLLISIONS
    decreases MAX_NAME_COLLISIONS - n
  {
    if n == MAX_NAME_COLLISIONS then name
    else if Candidate(name, n) !in disk then Candidate(name, n)
    else FreeFrom(disk, name, n + 1)
  }

  function Destination(disk: Disk, name: string): string {
    FreeFrom(disk, name, 0)
  }

  function Finish(s: State, id: Id): Out<string> {
    if id !in s.incoming then Out(s, Err(UnknownTransfer))
    else
      var t := s.incoming[id];
      if t.fileSize != UNKNOWN_SIZE && t.received != t.fileSize then Out(s, Err(Incomplete))
      else if t.partName !in s.disk then Out(s, Err(PartMissing))
      else
        var to := Destination(s.disk, t.finalName);
        Out(State((s.disk - {t.partName})[to := s.disk[t.partName]], s.incoming - {id}), Ok(to))
  }

  function Abort(s: State, id: Id): Out<()> {
    if id !in s.incoming then Out(s, Err(UnknownTransfer))
    else Out(State(s.disk - {s.incoming[id].partName}, s.incoming - {id}), Ok(()))
  }

  // ---- the invariant -----------------------------------------------------------

  predicate Known(t: Incoming) {
    t.fileSize <= I64_MAX
  }

  /** The part file is there and `received` is its length (modulo 2^64, which a
      size announced in a packet never reaches). */
  ghost predicate TransferOk(s: State, id: Id) {
    id in s.incoming ==>
      var t := s.incoming[id];
      && SafeName(t.finalName) && t.partName == t.finalName + PART_SUFFIX && t.partName in s.disk
      && t.received == |s.disk[t.partName]| % U64_RANGE
      && (Known(t) ==> |s.disk[t.partName]| <= t.fileSize)
  }

  ghost predicate Apart(s: State, a: Id, b: Id) {
    a in s.incoming && b in s.incoming && a != b ==> s.incoming[a].partName != s.incoming[b].partName
  }

  ghost predicate Inv(s: State) {
    (forall id :: TransferOk(s, id)) && forall a, b :: Apart(s, a, b)
  }

  lemma StartKeeps(s: State, id: Id, fileName: string, fileSize: u64)
    requires Inv(s)
    ensures Inv(Start(s, id, fileName, fileSize).state)
  {
    var s' := Start(s, id, fileName, fileSize).state;
    SanitizedIsSafe(fileName);
    forall o
      ensures TransferOk(s', o)
    {
      assert TransferOk(s, o);
    }
    forall a, b
      ensures Apart(s', a, b)
    {
      assert Apart(s, a, b) && TransferOk(s, a) && TransferOk(s, b);
    }
  }

  lemma WriteKeeps(s: State, id: Id, data: Bytes)
    requires Inv(s)
    ensures Inv(Write(s, id, data).state)
  {
    var s' := Write(s, id, data).state;
    assert TransferOk(s, id);
    forall o
      ensures TransferOk(s', o)
    {
      assert TransferOk(s, o) && Apart(s, o, id);
      if o == id && Write(s, id, data).result.Ok? {
        WrapAdd(|s.disk[s.incoming[id].partName]|, |data|);
      }
    }
    forall a, b
      ensures Apart(s', a, b)
    {
      assert Apart(s, a, b);
    }
  }

  lemma WrapAdd(a: nat, b: nat)
    ensures (a % U64_RANGE + b) % U64_RANGE == (a + b) % U64_RANGE
  {
    assert (a + b) == U64_RANGE * (a / U64_RANGE) + (a % U64_RANGE + b);
  }

  lemma AbortKeeps(s: State, id: Id)
    requires Inv(s)
    ensures Inv(Abort(s, id).state)
  {
    var s' := Abort(s, id).state;
    forall o
      ensures TransferOk(s', o)
    {
      assert TransferOk(s, o) && Apart(s, o, id);
    }
    forall a, b
      ensures Apart(s', a, b)
    {
      assert Apart(s, a, b);
    }
  }

  // ---- destinations --------------------------------------------------------------

  ghost predicate FreeAt(disk: Disk, name: string, n: nat) {
    n < MAX_NAME_COLLISIONS && Candidate(name, n) !in disk
  }

  ghost predicate HasRoom(disk: Disk, name: string) {
    exists n :: FreeAt(disk, name, n)
  }

  lemma {:induction false} FreeFromFree(disk: Disk, name: string, n: nat, k: nat) returns (j: nat)
    requires n <= k && FreeAt(disk, name, k)
    ensures n <= j && FreeAt(disk, name, j) && FreeFrom(disk, name, n) == Candidate(name, j)
    ensures forall i :: n <= i < j ==> Candidate(name, i) in disk
    decreases k - n
  {
    if Candidate(name, n) in disk {
      j := FreeFromFree(disk, name, n + 1, k);
    } else {
      j := n;
    }
  }

  lemma {:induction false} FreeFromFull(disk: Disk, name: string, n: nat)
    requires n <= MAX_NAME_COLLISIONS && forall k :: n <= k ==> !FreeAt(disk, name, k)
    ensures FreeFrom(disk, name, n) == name
    decreases MAX_NAME_COLLISIONS - n
  {
    if n < MAX_NAME_COLLISIONS {
      assert !FreeAt(disk, name, n);
      FreeFromFull(disk, name, n + 1);
    }
  }

  /** A finished file lands on an existing name exactly when all 10,000 candidates
      are taken; and then it replaces the file of the plain name. */
  lemma DestinationIsFree(disk: Disk, name: string)
    ensures Destination(disk, name) !in disk <==> HasRoom(disk, name)
    ensures !HasRoom(disk, name) ==> Destination(disk, name) == name
  {
    if HasRoom(disk, name) {
      var k :| FreeAt(disk, name, k);
      var _ := FreeFromFree(disk, name, 0, k);
    } else {
      assert !FreeAt(disk, name, 0);
      FreeFromFull(disk, name, 0);
    }
  }

  /** The n-th candidate is free and no earlier one is. */
  ghost predicate FirstFree(disk: Disk, name: string, n: nat) {
    FreeAt(disk, name, n) && forall i :: 0 <= i < n ==> Candidate(name, i) in disk
  }

  /** A file gets its own name if that is free, and else the first free copy. */
  lemma FirstFreeIsTaken(disk: Disk, name: string) returns (n: nat)
    requires HasRoom(disk, name)
    ensures FirstFree(disk, name, n) && Destination(disk, name) == Candidate(name, n)
    ensures name !in disk ==> Destination(disk, name) == name
  {
    var k :| FreeAt(disk, name, k);
    n := FreeFromFree(disk, name, 0, k);
    assert Candidate(name, 0) == name;
  }

  /** With fewer than 10,000 files in the directory there is always room. */
  lemma RoomByPigeonhole(disk: Disk, name: string)
    requires |disk| < MAX_NAME_COLLISIONS
    ensures HasRoom(disk, name)
  {
    assert |disk.Keys| == |disk|;
    SomeCandidateIsFree(name, disk.Keys);
    var n :| 0 <= n < MAX_NAME_COLLISIONS && Candidate(name, n) !in disk.Keys;
    assert FreeAt(disk, name, n);
  }

  lemma FinishKeeps(s: State, id: Id)
    requires Inv(s) && (id in s.incoming ==> HasRoom(s.disk, s.incoming[id].finalName))
    ensures Inv(Finish(s, id).state)
  {
    var s' := Finish(s, id).state;
    if id in s.incoming {
      DestinationIsFree(s.disk, s.incoming[id].finalName);
    }
    forall o
      ensures TransferOk(s', o)
    {
      assert TransferOk(s, o) && TransferOk(s, id) && Apart(s, o, id);
    }
    forall a, b
      ensures Apart(s', a, b)
    {
      assert Apart(s, a, b);
    }
  }

  // ---- what is accepted and what refused ---------------------------------------------

  /** The bytes of an active transfer's part file. */
  function Staged(s: State, id: Id): Bytes {
    if id in s.incoming && s.incoming[id].partName in s.disk then s.disk[s.incoming[id].partName] else []
  }

  /** A receive starts if and only if its id is new and nobody holds its part file. */
  lemma StartVerdict(s: State, id: Id, fileName: string, fileSize: u64)
    ensures var o := Start(s, id, fileName, fileSize); var part := Sanitized(fileName) + ".handfast-part";
      && (o.result.Ok? <==> id !in s.incoming && part !in s.disk)
      && (o.result.Ok? ==> o.state == State(s.disk[part := []], s.incoming[id := Incoming(fileSize, Sanitized(fileName), part, 0)]))
      && (o.result.Err? ==> o.state == s && o.result.error == if id in s.incoming then AlreadyActive else PartExists)
  {
  }

  /** A chunk is taken if and only if it is at most 64 KiB, its transfer is active and
      it does not go past the announced size; then it goes to the end of the part file. */
  lemma WriteVerdict(s: State, id: Id, data: Bytes)
    requires Inv(s) && (id in s.incoming ==> s.incoming[id].fileSize <= I64_MAX)
    ensures var o := Write(s, id, data);
      && (o.result.Ok? <==> |data| <= 65536 && id in s.incoming
                            && |Staged(s, id)| + |data| <= s.incoming[id].fileSize)
      && (o.result.Ok? ==>
            && o.state.disk == s.disk[s.incoming[id].partName := Staged(s, id) + data]
            && o.result.value == |Staged(s, id)| + |data|)
      && (o.result.Err? ==> o.state == s)
      && (o.result.Err? ==>
            o.result.error == if |data| > 65536 then ChunkTooLarge else if id !in s.incoming then UnknownTransfer else Overflows)
  {
    assert TransferOk(s, id);
    if id in s.incoming {
      WrapAdd(|Staged(s, id)|, |data|);
    }
  }

  /** A transfer finishes if and only if it is active and complete, and one of unknown
      size whenever it is active. */
  lemma FinishVerdict(s: State, id: Id)
    requires Inv(s) && (id in s.incoming ==> s.incoming[id].fileSize <= I64_MAX || s.incoming[id].fileSize == UNKNOWN_SIZE)
    ensures var o := Finish(s, id);
      && (o.result.Ok? <==> id in s.incoming && (s.incoming[id].fileSize == UNKNOWN_SIZE
                            || |Staged(s, id)| == s.incoming[id].fileSize))
      && (o.result.Ok? ==> o.state.incoming.Keys == s.incoming.Keys - {id})
      && (o.result.Err? ==> o.state == s && o.result.error == if id in s.incoming then Incomplete else UnknownTransfer)
  {
    assert TransferOk(s, id);
  }

  /** An abort of an active transfer removes it and its part file, and nothing else. */
  lemma AbortVerdict(s: State, id: Id)
    requires Inv(s)
    ensures var o := Abort(s, id);
      && (o.result.Ok? <==> id in s.incoming) && (o.result.Err? ==> o.state == s && o.result.error == UnknownTransfer)
      && (o.result.Ok? ==> o.state.disk.Keys == s.disk.Keys - {s.incoming[id].partName}
                           && s.incoming[id].partName in s.disk && o.state.incoming.Keys == s.incoming.Keys - {id})
  {
    assert TransferOk(s, id);
  }

  // ---- runs of operations ----------------------------------------------------------

  datatype Op =
    | StartOp(id: Id, fileName: string, fileSize: u64)
    | WriteOp(id: Id, data: Bytes)
    | FinishOp(id: Id)
    | AbortOp(id: Id)

  function Apply(s: State, op: Op): State {
    match op
    case StartOp(id, fileName, fileSize) => Start(s, id, fileName, fileSize).state
    case WriteOp(id, data) => Write(s, id, data).state
    case FinishOp(id) => Finish(s, id).state
    case AbortOp(id) => Abort(s, id).state
  }

  function Run(s: State, ops: seq<Op>): State {
    if ops == [] then s else Apply(Run(s, ops[..|ops| - 1]), ops[|ops| - 1])
  }

  /** A finish of an active transfer has a free name to go to. */
  ghost predicate Roomy(s: State, op: Op) {
    op.FinishOp? && op.id in s.incoming ==> HasRoom(s.disk, s.incoming[op.id].finalName)
  }

  ghost predicate AllRoomy(s: State, ops: seq<Op>) {
    forall i :: 0 <= i < |ops| ==> Roomy(Run(s, ops[..i]), ops[i])
  }

  lemma ApplyKeeps(s: State, op: Op)
    requires Inv(s) && Roomy(s, op)
    ensures Inv(Apply(s, op))
  {
    match op {
      case StartOp(id, fileName, fileSize) => StartKeeps(s, id, fileName, fileSize);
      case WriteOp(id, data) => WriteKeeps(s, id, data);
      case FinishOp(id) => FinishKeeps(s, id);
      case AbortOp(id) => AbortKeeps(s, id);
    }
  }

  /** Staging isolation: an operation on one transfer leaves every other transfer
      as it was, and every file that is not its own part file, when the finish (if
      it is one) has room. */
  lemma Isolation(s: State, op: Op, other: Id, file: string)
    requires Inv(s) && Roomy(s, op)
    ensures other != op.id ==> (other in Apply(s, op).incoming <==> other in s.incoming)
    ensures other != op.id && other in s.incoming ==> Apply(s, op).incoming[other] == s.incoming[other]
    ensures other != op.id && other in s.incoming && file == s.incoming[other].partName ==>
      file in Apply(s, op).disk && file in s.disk && Apply(s, op).disk[file] == s.disk[file]
    ensures file in s.disk && !(op.id in s.incoming && file == s.incoming[op.id].partName) ==>
      file in Apply(s, op).disk && Apply(s, op).disk[file] == s.disk[file]
  {
    assert TransferOk(s, op.id) && TransferOk(s, other) && Apart(s, op.id, other);
    if op.FinishOp? && op.id in s.incoming {
      DestinationIsFree(s.disk, s.incoming[op.id].finalName);
    }
  }

  /** The accepted chunks of `id`, in order, since its transfer began. */
  function Accepted(s: State, ops: seq<Op>, id: Id): Bytes {
    if ops == [] then []
    else
      var front, op := ops[..|ops| - 1], ops[|ops| - 1];
      var before := Run(s, front);
      if op.StartOp? && op.id == id && Start(before, id, op.fileName, op.fileSize).result.Ok? then []
      else if op.WriteOp? && op.id == id && Write(before, id, op.data).result.Ok? then Accepted(s, front, id) + op.data
      else Accepted(s, front, id)
  }

  lemma AllRoomyFront(s: State, ops: seq<Op>)
    requires ops != [] && AllRoomy(s, ops)
    ensures AllRoomy(s, ops[..|ops| - 1]) && Roomy(Run(s, ops[..|ops| - 1]), ops[|ops| - 1])
  {
    var front := ops[..|ops| - 1];
    forall i | 0 <= i < |front|
      ensures Roomy(Run(s, front[..i]), front[i])
    {
      assert front[..i] == ops[..i] && front[i] == ops[i];
    }
  }

  /** One step of an active transfer's part file. */
  lemma ContentStep(s: State, op: Op, id: Id, was: Bytes)
    requires Inv(s) && Roomy(s, op) && id in Apply(s, op).incoming
    requires id in s.incoming ==> s.incoming[id].partName in s.disk && s.disk[s.incoming[id].partName] == was
    ensures var s' := Apply(s, op);
      && s'.incoming[id].partName in s'.disk
      && s'.disk[s'.incoming[id].partName]
         == if op.StartOp? && op.id == id && Start(s, id, op.fileName, op.fileSize).result.Ok? then []
            else if op.WriteOp? && op.id == id && Write(s, id, op.data).result.Ok? then was + op.data
            else was
  {
    assert TransferOk(s, id);
    if op.id != id {
      Isolation(s, op, id, s.incoming[id].partName);
    }
  }

  /** In every run of interleaved transfers, an active transfer's part file exists
      and holds exactly the concatenation of its accepted chunks; part files of
      distinct transfers are distinct; and a known size is never exceeded. */
  lemma {:induction false} StagingOk(s: State, ops: seq<Op>, id: Id)
    requires s.incoming == map[] && AllRoomy(s, ops)
    ensures Inv(Run(s, ops))
    ensures id in Run(s, ops).incoming ==>
      var t := Run(s, ops).incoming[id];
      t.partName in Run(s, ops).disk && Run(s, ops).disk[t.partName] == Accepted(s, ops, id)
  {
    if ops != [] {
      var front, op := ops[..|ops| - 1], ops[|ops| - 1];
      AllRoomyFront(s, ops);
      StagingOk(s, front, id);
      ApplyKeeps(Run(s, front), op);
      if id in Run(s, ops).incoming {
        ContentStep(Run(s, front), op, id, Accepted(s, front, id));
      }
    }
  }

  /** What a finished transfer leaves behind: a file with the accepted bytes under a
      safe name that was free, nothing else changed, and the part file gone. */
  lemma Finished(s: State, id: Id)
    requires Inv(s) && Finish(s, id).result.Ok? && HasRoom(s.disk, s.incoming[id].finalName)
    ensures var t := s.incoming[id]; var to := Finish(s, id).result.value; var s' := Finish(s, id).state;
      && to !in s.disk && t.partName in s.disk && t.partName !in s'.disk
      && s'.disk.Keys == s.disk.Keys - {t.partName} + {to}
      && s'.disk[to] == s.disk[t.partName]
      && (Known(t) ==> |s'.disk[to]| == t.fileSize)
      && (exists n :: FirstFree(s.disk, t.finalName, n) && to == Candidate(t.finalName, n))
      && (t.finalName !in s.disk ==> to == t.finalName)
  {
    assert TransferOk(s, id);
    DestinationIsFree(s.disk, s.incoming[id].finalName);
    var _ := FirstFreeIsTaken(s.disk, s.incoming[id].finalName);
  }

  /** Without room, a finish replaces a completed file (or another transfer's part
      file): the documented promise fails exactly then. */
  lemma Overwrites(s: State, id: Id)
    requires Inv(s) && Finish(s, id).result.Ok?
    ensures Finish(s, id).result.value in s.disk <==> !HasRoom(s.disk, s.incoming[id].finalName)
    ensures !HasRoom(s.disk, s.incoming[id].finalName) ==>
      var t := s.incoming[id];
      t.partName in s.disk && t.finalName in s.disk && t.finalName in Finish(s, id).state.disk
      && Finish(s, id).state.disk[t.finalName] == s.disk[t.partName]
  {
    assert TransferOk(s, id);
    DestinationIsFree(s.disk, s.incoming[id].finalName);
  }
}
