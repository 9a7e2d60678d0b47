/** Why transfers end as they do, over every interleaving of actor and tasks: a failure
    has its cause, a success its completed stream, and the reports count what moved. */
module TransferOutcomes {
  import opened Prelude
  import opened TransferLifecycle
  import TransferContents
  import Staging = TransferEngine

  // ---- causes ---------------------------------------------------------------------------

  /** The steps that make a transfer fail: no data connection, a task that gives up, an
      engine that refuses, or a file that could not be moved on. */
  predicate Fails(s: State, step: Step, id: Id) {
    match step
    case DialFailed => id == IdOf(s.nextSeq + 1)
    case Quit(i, _) => i == id
    case Open(i) =>
      && i == id && id in s.tasks && s.tasks[id].Opening? && id in s.records
      && Staging.Start(s.engine, id, s.tasks[id].fileName, s.records[id].size).result.Err?
    case Chunk(i, data) => i == id && Staging.Write(s.engine, id, data).result.Err?
    case Complete(i, moved) =>
      i == id && id in s.tasks && s.tasks[id].Receiving? && (!moved || Staging.Finish(s.engine, id).result.Err?)
    case _ => false
  }

  /** The steps that make it succeed: an empty file is sent with its header; a sender
      reaches the end of its file; a receiver's file lands. */
  predicate Succeeds(s: State, step: Step, id: Id) {
    match step
    case SendEmpty => id == IdOf(s.nextSeq + 1)
    case Complete(i, moved) =>
      && i == id && id in s.tasks
      && (s.tasks[id].Sending? || (s.tasks[id].Receiving? && moved && Staging.Finish(s.engine, id).result.Ok?))
    case _ => false
  }

  predicate HasFailed(s: State, id: Id) {
    (id in s.tasks && s.tasks[id] == Ended(false)) || (id in s.records && s.records[id].status == Failed)
  }

  predicate HasSucceeded(s: State, id: Id) {
    (id in s.tasks && s.tasks[id] == Ended(true)) || (id in s.records && s.records[id].status == Finished)
  }

  /** A step about another transfer. */
  predicate Foreign(s: State, step: Step, id: Id) {
    !TransferContents.About(step, id) && id != IdOf(s.nextSeq + 1)
  }

  lemma EndsNow(s: State, step: Step, id: Id)
    requires Inv(s) && Next(s, step).Some? && !Foreign(s, step, id)
    ensures var s' := Next(s, step).value;
      && (HasFailed(s', id) ==> HasFailed(s, id) || Fails(s, step, id))
      && (HasSucceeded(s', id) ==> HasSucceeded(s, id) || Succeeds(s, step, id))
  {
    NewIdIsFresh(s);
    assert Fine(s, id);
  }

  lemma EndsBecause(s: State, step: Step, id: Id)
    requires Inv(s) && Next(s, step).Some?
    ensures var s' := Next(s, step).value;
      && (HasFailed(s', id) ==> HasFailed(s, id) || Fails(s, step, id))
      && (HasSucceeded(s', id) ==> HasSucceeded(s, id) || Succeeds(s, step, id))
  {
    if Foreign(s, step, id) {
      TransferContents.OthersKeepRecord(s, step, id);
    } else {
      EndsNow(s, step, id);
    }
  }

  /** In every run, a failed transfer has a step that made it fail. */
  lemma {:induction false} FailedBecause(disk: Staging.Disk, steps: seq<Step>, id: Id) returns (k: nat)
    requires Run(disk, steps).Some? && HasFailed(Run(disk, steps).value, id)
    ensures k < |steps| && Run(disk, steps[..k]).Some? && Fails(Run(disk, steps[..k]).value, steps[k], id)
  {
    var n := |steps| - 1;
    var front := steps[..n];
    var s := Run(disk, front).value;
    RunKeeps(disk, front);
    EndsBecause(s, steps[n], id);
    if HasFailed(s, id) {
      k := FailedBecause(disk, front, id);
      assert front[..k] == steps[..k];
    } else {
      k := n;
    }
  }

  /** And a finished one a step that completed it. */
  lemma {:induction false} FinishedBecause(disk: Staging.Disk, steps: seq<Step>, id: Id) returns (k: nat)
    requires Run(disk, steps).Some? && HasSucceeded(Run(disk, steps).value, id)
    ensures k < |steps| && Run(disk, steps[..k]).Some? && Succeeds(Run(disk, steps[..k]).value, steps[k], id)
  {
    var n := |steps| - 1;
    var front := steps[..n];
    var s := Run(disk, front).value;
    RunKeeps(disk, front);
    EndsBecause(s, steps[n], id);
    if HasSucceeded(s, id) {
      k := FinishedBecause(disk, front, id);
      assert front[..k] == steps[..k];
    } else {
      k := n;
    }
  }

  /** Once its task has ended, the actor's next word on a transfer is its outcome. */
  lemma OutcomeTold(s: State, id: Id)
    requires Inv(s) && id in s.tasks && s.tasks[id].Ended?
    ensures var s' := Next(s, Outcome(id)).value;
      && Next(s, Outcome(id)).Some? && id in s'.records && id !in s'.tasks && id !in s'.engine.incoming
      && s'.records[id].status == (if s.tasks[id].ok then Finished else Failed)
      && s'.bus == s.bus + [if s.tasks[id].ok then Completed(id) else Broke(id)]
  {
    assert Fine(s, id);
  }

  /** A sender that reaches the end of its file has finished, and says so. */
  lemma SenderFinishes(s: State, id: Id, moved: bool)
    requires Inv(s) && Running(s, id) && s.tasks[id].Sending?
    ensures var s1 := Next(s, Complete(id, moved)).value;
      && Next(s, Complete(id, moved)).Some? && Next(s1, Outcome(id)).Some?
      && var s2 := Next(s1, Outcome(id)).value;
         id in s2.records && s2.records[id].status == Finished && s2.bus == s.bus + [Completed(id)]
  {
    assert Fine(s, id);
  }

  /** So has a receiver whose file lands. */
  lemma ReceiverFinishes(s: State, id: Id)
    requires Inv(s) && Running(s, id) && s.tasks[id].Receiving? && Staging.Finish(s.engine, id).result.Ok?
    ensures var s1 := Next(s, Complete(id, true)).value;
      && Next(s, Complete(id, true)).Some? && Next(s1, Outcome(id)).Some?
      && var s2 := Next(s1, Outcome(id)).value;
         id in s2.records && s2.records[id].status == Finished && s2.bus == s.bus + [Completed(id)]
  {
    assert Fine(s, id);
  }

  /** Only an active transfer can be cancelled, and cancelling raises its flag alone. */
  lemma CancelRaisesFlag(s: State, id: Id)
    ensures Next(s, Cancel(id)).Some? <==> id in s.records && s.records[id].status == Active
    ensures Next(s, Cancel(id)).Some? ==>
      Next(s, Cancel(id)).value == s.(records := s.records[id := s.records[id].(cancel := true)])
  {
  }

  /** A cancelled receiver drops its staging by itself. */
  lemma CancelAborts(s: State, id: Id)
    requires Inv(s) && Running(s, id) && s.tasks[id].Receiving? && s.records[id].cancel
    ensures Next(s, Quit(id, true)).Some?
    ensures var s' := Next(s, Quit(id, true)).value; id !in s'.engine.incoming && HasFailed(s', id)
  {
  }

  // ---- where a record comes from ------------------------------------------------------------

  /** The step that registers `id`, with its direction and size. */
  predicate Registers(s: State, step: Step, id: Id, incoming: bool, size: Staging.u64) {
    && id == IdOf(s.nextSeq + 1)
    && match step
       case SendEmpty => !incoming && size == 0
       case SendFile(n) => !incoming && size == n
       case DialFailed => incoming && size == 0
       case SpawnReceive(_, n) => incoming && size == n
       case _ => false
  }

  lemma RecordComesFrom(s: State, step: Step, id: Id)
    requires Inv(s) && Next(s, step).Some? && id in Next(s, step).value.records
    ensures var t := Next(s, step).value.records[id];
      || (id in s.records && s.records[id].incoming == t.incoming && s.records[id].size == t.size)
      || Registers(s, step, id, t.incoming, t.size)
    ensures Next(s, step).value.records[id].cancel ==> (id in s.records && s.records[id].cancel) || step == Cancel(id)
  {
    NewIdIsFresh(s);
    assert Fine(s, id);
    if Foreign(s, step, id) {
      TransferContents.OthersKeepRecord(s, step, id);
    }
  }

  /** Every record was registered by a step of the run, with that direction and size, and
      only an explicit cancel raises its flag. */
  lemma {:induction false} RegisteredBy(disk: Staging.Disk, steps: seq<Step>, id: Id) returns (k: nat)
    requires Run(disk, steps).Some? && id in Run(disk, steps).value.records
    ensures k < |steps| && Run(disk, steps[..k]).Some?
    ensures var t := Run(disk, steps).value.records[id];
      Registers(Run(disk, steps[..k]).value, steps[k], id, t.incoming, t.size) && (t.cancel ==> Cancel(id) in steps)
  {
    var n := |steps| - 1;
    var front := steps[..n];
    var s := Run(disk, front).value;
    RunKeeps(disk, front);
    RecordComesFrom(s, steps[n], id);
    assert steps == front + [steps[n]];
    if id in s.records {
      NewIdIsFresh(s);
      assert Fine(s, id);
      k := RegisteredBy(disk, front, id);
      assert front[..k] == steps[..k];
    } else {
      k := n;
    }
  }

  // ---- what the reports count -----------------------------------------------------------------

  /** The bytes a sender has put out. */
  function Put(steps: seq<Step>, id: Id): nat {
    if steps == [] then 0
    else
      var last := steps[|steps| - 1];
      Put(steps[..|steps| - 1], id) + if last.Sent? && last.id == id then last.n else 0
  }

  predicate Counts(s: State, id: Id, put: nat, got: nat) {
    && (id !in s.records || (id in s.tasks && s.tasks[id].Opening?) ==> put == 0 && got == 0)
    && (id in s.tasks && s.tasks[id].Sending? ==> s.tasks[id].done == put)
    && (id in s.tasks && s.tasks[id].Receiving? ==> s.tasks[id].done == got)
  }

  lemma CountsOwn(s: State, step: Step, id: Id, put: nat, got: nat)
    requires Inv(s) && Next(s, step).Some? && Counts(s, id, put, got) && !Foreign(s, step, id)
    ensures Counts(Next(s, step).value, id, put + (if step.Sent? && step.id == id then step.n else 0),
                   got + if step.Chunk? && step.id == id then |step.data| else 0)
  {
    NewIdIsFresh(s);
    assert Fine(s, id);
  }

  lemma CountsForeign(s: State, step: Step, id: Id, put: nat, got: nat)
    requires Next(s, step).Some? && Counts(s, id, put, got) && Foreign(s, step, id)
    ensures Counts(Next(s, step).value, id, put, got)
  {
    TransferContents.OthersKeepRecord(s, step, id);
  }

  lemma ReceivedGrows(steps: seq<Step>, id: Id)
    requires steps != []
    ensures var last := steps[|steps| - 1];
      |TransferContents.Received(steps, id)|
      == |TransferContents.Received(steps[..|steps| - 1], id)| + if last.Chunk? && last.id == id then |last.data| else 0
  {
  }

  /** In every run, a task's count, which is the last progress on the bus, is what it put
      out or was handed so far. */
  lemma {:induction false} ReportsCount(disk: Staging.Disk, steps: seq<Step>, id: Id)
    requires Run(disk, steps).Some?
    ensures Counts(Run(disk, steps).value, id, Put(steps, id), |TransferContents.Received(steps, id)|)
    ensures var s := Run(disk, steps).value;
      && (id in s.tasks && s.tasks[id].Sending? ==>
            LifeOf(s.bus, id).Live? && LifeOf(s.bus, id).done == Put(steps, id))
      && (id in s.tasks && s.tasks[id].Receiving? ==>
            LifeOf(s.bus, id).Live? && LifeOf(s.bus, id).done == |TransferContents.Received(steps, id)|)
  {
    RunKeeps(disk, steps);
    assert Fine(Run(disk, steps).value, id);
    if steps != [] {
      var front, last := steps[..|steps| - 1], steps[|steps| - 1];
      var s := Run(disk, front).value;
      ReportsCount(disk, front, id);
      RunKeeps(disk, front);
      ReceivedGrows(steps, id);
      if Foreign(s, last, id) {
        CountsForeign(s, last, id, Put(front, id), |TransferContents.Received(front, id)|);
      } else {
        CountsOwn(s, last, id, Put(front, id), |TransferContents.Received(front, id)|);
      }
    }
  }
}
