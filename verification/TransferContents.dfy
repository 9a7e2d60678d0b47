/** What interleaved transfers leave on disk: any number of receive tasks share one
    staging engine, and every file that lands holds the chunks of its own transfer. */
module TransferContents {
  import opened Prelude
  import opened TransferLifecycle
  import Staging = TransferEngine

  // ---- a run of tasks is a run of engine operations ----------------------------------

  /** The engine operation inside a step, if there is one. */
  function EngineOp(s: State, step: Step): Option<Staging.Op> {
    match step
    case DialFailed => Some(Staging.AbortOp(IdOf(s.nextSeq + 1)))
    case Outcome(id) =>
      if id in s.tasks && s.tasks[id] == Ended(false) then Some(Staging.AbortOp(id)) else None
    case Open(id) =>
      if Running(s, id) && s.tasks[id].Opening? then Some(Staging.StartOp(id, s.tasks[id].fileName, s.records[id].size))
      else None
    case Chunk(id, data) => Some(Staging.WriteOp(id, data))
    case Quit(id, cancelled) =>
      if Running(s, id) && s.tasks[id].Receiving? && cancelled then Some(Staging.AbortOp(id)) else None
    case Complete(id, _) =>
      if Running(s, id) && s.tasks[id].Receiving? then Some(Staging.FinishOp(id)) else None
    case _ => None
  }

  lemma EngineMoves(s: State, step: Step)
    requires Next(s, step).Some?
    ensures var e := Next(s, step).value.engine;
            e == match EngineOp(s, step) case None => s.engine case Some(op) => Staging.Apply(s.engine, op)
  {
  }

  /** A file about to land has a free name to go to. */
  ghost predicate RoomAt(s: State, step: Step) {
    EngineOp(s, step).Some? ==> Staging.Roomy(s.engine, EngineOp(s, step).value)
  }

  /** Every step of the run has that room. */
  ghost predicate RoomyRun(disk: Staging.Disk, steps: seq<Step>) {
    steps != [] ==>
      var front := steps[..|steps| - 1];
      RoomyRun(disk, front) && Run(disk, front).Some? && RoomAt(Run(disk, front).value, steps[|steps| - 1])
  }

  lemma EngineKeeps(s: State, step: Step)
    requires Staging.Inv(s.engine) && RoomAt(s, step) && Next(s, step).Some?
    ensures Staging.Inv(Next(s, step).value.engine)
  {
    EngineMoves(s, step);
    if EngineOp(s, step).Some? {
      Staging.ApplyKeeps(s.engine, EngineOp(s, step).value);
    }
  }

  // ---- the part file of a running receiver ----------------------------------------------

  /** The data of the chunks handed over for `id`, in order. */
  function Received(steps: seq<Step>, id: Id): Bytes {
    if steps == [] then []
    else
      var front, last := steps[..|steps| - 1], steps[|steps| - 1];
      Received(front, id) + if last.Chunk? && last.id == id then last.data else []
  }

  lemma ReceivedStep(steps: seq<Step>, id: Id)
    requires steps != []
    ensures var front, last := steps[..|steps| - 1], steps[|steps| - 1];
      && (last.Chunk? && last.id == id ==> Received(steps, id) == Received(front, id) + last.data)
      && (!(last.Chunk? && last.id == id) ==> Received(steps, id) == Received(front, id))
  {
  }

  /** Before its receiver runs nothing was handed over for `id`; while it runs, the
      part file holds `bytes`. */
  predicate Holds(s: State, id: Id, bytes: Bytes) {
    && (id !in s.records || (id in s.tasks && s.tasks[id].Opening?) ==> bytes == [])
    && (id in s.tasks && s.tasks[id].Receiving? ==>
          && id in s.engine.incoming && s.engine.incoming[id].partName in s.engine.disk
          && s.engine.disk[s.engine.incoming[id].partName] == bytes)
  }

  /** The transfer a step is about, when it is about an existing one. */
  predicate About(step: Step, id: Id) {
    match step
    case SendEmpty => false
    case SendFile(_) => false
    case DialFailed => false
    case SpawnReceive(_, _) => false
    case Cancel(i) => i == id
    case Outcome(i) => i == id
    case Sent(i, _) => i == id
    case Open(i) => i == id
    case Chunk(i, _) => i == id
    case Quit(i, _) => i == id
    case Complete(i, _) => i == id
  }

  /** A step about others leaves the record and the task of `id` alone. */
  lemma OthersKeepRecord(s: State, step: Step, id: Id)
    requires Next(s, step).Some? && !About(step, id) && id != IdOf(s.nextSeq + 1)
    ensures var s' := Next(s, step).value;
      && (id in s'.records <==> id in s.records) && (id in s.records ==> s'.records[id] == s.records[id])
      && (id in s'.tasks <==> id in s.tasks) && (id in s.tasks ==> s'.tasks[id] == s.tasks[id])
  {
  }

  lemma OthersKeepPart(s: State, step: Step, id: Id, bytes: Bytes)
    requires Staging.Inv(s.engine) && RoomAt(s, step) && Next(s, step).Some?
    requires !About(step, id) && id != IdOf(s.nextSeq + 1) && Holds(s, id, bytes)
    ensures Holds(Next(s, step).value, id, bytes)
  {
    OthersKeepRecord(s, step, id);
    EngineMoves(s, step);
    if id in s.tasks && s.tasks[id].Receiving? && EngineOp(s, step).Some? {
      Staging.Isolation(s.engine, EngineOp(s, step).value, id, s.engine.incoming[id].partName);
    }
  }

  /** A registration gives its new id no receiver yet. */
  lemma NewIdHolds(s: State, step: Step, bytes: Bytes)
    requires Inv(s) && Next(s, step).Some? && Holds(s, IdOf(s.nextSeq + 1), bytes)
    requires !About(step, IdOf(s.nextSeq + 1))
    ensures Holds(Next(s, step).value, IdOf(s.nextSeq + 1), bytes)
  {
    NewIdIsFresh(s);
    assert Fine(s, IdOf(s.nextSeq + 1));
  }

  lemma ChunkHolds(s: State, id: Id, data: Bytes, bytes: Bytes)
    requires Next(s, Chunk(id, data)).Some? && Holds(s, id, bytes)
    ensures Holds(Next(s, Chunk(id, data)).value, id, bytes + data)
  {
  }

  lemma OwnHolds(s: State, step: Step, id: Id, bytes: Bytes)
    requires Next(s, step).Some? && About(step, id) && !step.Chunk? && Holds(s, id, bytes)
    ensures Holds(Next(s, step).value, id, bytes)
  {
  }

  lemma StepHolds(s: State, step: Step, id: Id, bytes: Bytes)
    requires Inv(s) && Staging.Inv(s.engine) && RoomAt(s, step) && Next(s, step).Some? && Holds(s, id, bytes)
    ensures Holds(Next(s, step).value, id, if step.Chunk? && step.id == id then bytes + step.data else bytes)
  {
    if step.Chunk? && step.id == id {
      ChunkHolds(s, id, step.data, bytes);
    } else if About(step, id) {
      OwnHolds(s, step, id, bytes);
    } else if id == IdOf(s.nextSeq + 1) {
      NewIdHolds(s, step, bytes);
    } else {
      OthersKeepPart(s, step, id, bytes);
    }
  }

  /** In every interleaving the part file of a running receiver is the concatenation
      of its own chunks, whatever the other tasks did with the engine in between. */
  lemma {:induction false} PartFiles(disk: Staging.Disk, steps: seq<Step>, id: Id)
    requires Run(disk, steps).Some? && RoomyRun(disk, steps)
    ensures Staging.Inv(Run(disk, steps).value.engine) && Holds(Run(disk, steps).value, id, Received(steps, id))
  {
    if steps != [] {
      var front, last := steps[..|steps| - 1], steps[|steps| - 1];
      PartFiles(disk, front, id);
      RunKeeps(disk, front);
      EngineKeeps(Run(disk, front).value, last);
      StepHolds(Run(disk, front).value, last, id, Received(front, id));
      ReceivedStep(steps, id);
    }
  }

  // ---- landed files -----------------------------------------------------------------------

  /** A file with these bytes that no running receiver is writing to. */
  ghost predicate Landed(s: State, name: string, bytes: Bytes) {
    && name in s.engine.disk && s.engine.disk[name] == bytes
    && forall id :: id in s.engine.incoming ==> s.engine.incoming[id].partName != name
  }

  lemma OpKeepsLanded(e: Staging.State, op: Staging.Op, name: string, id: Id)
    requires Staging.Inv(e) && Staging.Roomy(e, op) && name in e.disk && id in Staging.Apply(e, op).incoming
    requires forall o :: o in e.incoming ==> e.incoming[o].partName != name
    ensures Staging.Apply(e, op).incoming[id].partName != name
  {
    if id != op.id {
      Staging.Isolation(e, op, id, name);
    }
  }

  lemma LandedStays(s: State, step: Step, name: string, bytes: Bytes)
    requires Staging.Inv(s.engine) && RoomAt(s, step) && Next(s, step).Some? && Landed(s, name, bytes)
    ensures Landed(Next(s, step).value, name, bytes)
  {
    EngineMoves(s, step);
    if EngineOp(s, step).Some? {
      var e, op := s.engine, EngineOp(s, step).value;
      Staging.Isolation(e, op, op.id, name);
      forall id | id in Staging.Apply(e, op).incoming
        ensures Staging.Apply(e, op).incoming[id].partName != name
      {
        OpKeepsLanded(e, op, name, id);
      }
    }
  }

  ghost predicate LandedAfter(disk: Staging.Disk, steps: seq<Step>, name: string, bytes: Bytes) {
    Run(disk, steps).Some? && Landed(Run(disk, steps).value, name, bytes)
  }

  lemma LandedNext(disk: Staging.Disk, steps: seq<Step>, name: string, bytes: Bytes)
    requires steps != [] && RoomyRun(disk, steps) && Run(disk, steps).Some?
    requires LandedAfter(disk, steps[..|steps| - 1], name, bytes)
    ensures RoomyRun(disk, steps[..|steps| - 1]) && LandedAfter(disk, steps, name, bytes)
  {
    var front := steps[..|steps| - 1];
    PartFiles(disk, front, "");
    LandedStays(Run(disk, front).value, steps[|steps| - 1], name, bytes);
  }

  /** Whatever happens after the first `n` steps, a file landed by then stays as it is. */
  lemma {:induction false} StaysLanded(disk: Staging.Disk, steps: seq<Step>, n: nat, name: string, bytes: Bytes)
    requires n <= |steps| && RoomyRun(disk, steps) && Run(disk, steps).Some?
    requires LandedAfter(disk, steps[..n], name, bytes)
    ensures LandedAfter(disk, steps, name, bytes)
  {
    if n == |steps| {
      assert steps[..n] == steps;
    } else {
      var front := steps[..|steps| - 1];
      assert front[..n] == steps[..n];
      StaysLanded(disk, front, n, name, bytes);
      LandedNext(disk, steps, name, bytes);
    }
  }

  /** The end of a receiver's stream puts its chunks under a name that was free. */
  lemma Lands(s: State, id: Id, moved: bool, bytes: Bytes)
    requires Inv(s) && Staging.Inv(s.engine) && Holds(s, id, bytes) && RoomAt(s, Complete(id, moved))
    requires Running(s, id) && s.tasks[id].Receiving? && Staging.Finish(s.engine, id).result.Ok?
    ensures var to := Staging.Finish(s.engine, id).result.value;
      && to !in s.engine.disk && Landed(Next(s, Complete(id, moved)).value, to, bytes)
      && (s.records[id].size <= Staging.I64_MAX ==> |bytes| == s.records[id].size)
  {
    var to, e' := Staging.Finish(s.engine, id).result.value, Staging.Finish(s.engine, id).state;
    assert Fine(s, id);
    Staging.Finished(s.engine, id);
    forall o | o in e'.incoming
      ensures e'.incoming[o].partName != to
    {
      assert Staging.TransferOk(s.engine, o);
    }
  }

  // ---- a finished transfer has its file ----------------------------------------------------

  /** A receive task has reported success. */
  predicate Succeeded(s: State, id: Id) {
    && id in s.records && s.records[id].incoming
    && (s.records[id].status == Finished || (id in s.tasks && s.tasks[id] == Ended(true)))
  }

  /** The step with which a receiver succeeds. */
  predicate Landing(s: State, step: Step, id: Id) {
    && step.Complete? && step.id == id && Running(s, id) && s.tasks[id].Receiving?
    && Staging.Finish(s.engine, id).result.Ok?
  }

  lemma SuccessComesFrom(s: State, step: Step, id: Id)
    requires Inv(s) && Next(s, step).Some? && Succeeded(Next(s, step).value, id)
    ensures id in s.records && Next(s, step).value.records[id].size == s.records[id].size
    ensures Succeeded(s, id) || Landing(s, step, id)
    ensures Succeeded(s, id) ==> !(step.Chunk? && step.id == id)
  {
    assert Fine(s, id);
    NewIdIsFresh(s);
    if !About(step, id) && id != IdOf(s.nextSeq + 1) {
      OthersKeepRecord(s, step, id);
    }
  }

  /** In every interleaving with room for what lands, a finished incoming transfer
      has its file: exactly its own chunks, all of them, and as many bytes as were
      announced. */
  lemma {:induction false} FinishedFile(disk: Staging.Disk, steps: seq<Step>, id: Id) returns (name: string)
    requires Run(disk, steps).Some? && RoomyRun(disk, steps) && Succeeded(Run(disk, steps).value, id)
    ensures var s := Run(disk, steps).value;
      && Landed(s, name, Received(steps, id))
      && (s.records[id].size <= Staging.I64_MAX ==> |Received(steps, id)| == s.records[id].size)
  {
    var front, last := steps[..|steps| - 1], steps[|steps| - 1];
    var s := Run(disk, front).value;
    RunKeeps(disk, front);
    PartFiles(disk, front, id);
    SuccessComesFrom(s, last, id);
    ReceivedStep(steps, id);
    if Succeeded(s, id) {
      name := FinishedFile(disk, front, id);
      LandedStays(s, last, name, Received(front, id));
    } else {
      name := Staging.Finish(s.engine, id).result.value;
      Lands(s, id, last.moved, Received(front, id));
    }
  }
}
