/** The transfer registry (crates/daemon/src/device.rs) under interleaving: the
    actor registers transfers and takes their outcomes, spawned tasks stream and
    publish progress, and all receive tasks share one staging engine. */
module TransferLifecycle {
  import opened Prelude
  import opened FileNames
  import Staging = TransferEngine

  type Id = string

  datatype Status = Active | Finished | Failed

  datatype Record = Record(incoming: bool, size: Staging.u64, status: Status, cancel: bool)

  /** A spawned task. `Ended` has sent its TransferOutcome command to the actor. */
  datatype Task =
    | Sending(done: nat)
    | Opening(fileName: string)
    | Receiving(done: nat)
    | Ended(ok: bool)

  datatype Event =
    | Added(id: Id, incoming: bool, total: nat)
    | Progress(id: Id, done: nat, total: nat)
    | Completed(id: Id)
    | Broke(id: Id)

  datatype State = State(
    nextSeq: nat, records: map<Id, Record>, tasks: map<Id, Task>,
    bus: seq<Event>, engine: Staging.State)

  datatype Step =
    | SendEmpty                                             // actor: an empty file
    | SendFile(size: Staging.u64)                           // actor: spawn a sender
    | DialFailed                                            // actor: no data connection
    | SpawnReceive(fileName: string, size: Staging.u64)     // actor: spawn a receiver
    | Cancel(id: Id)                                        // actor: raise the flag
    | Outcome(id: Id)                                       // actor: a task has ended
    | Sent(id: Id, n: nat)                                  // sender: one chunk out
    | Open(id: Id)                                          // receiver: start staging
    | Chunk(id: Id, data: Bytes)                            // receiver: one chunk in
    | Quit(id: Id, cancelled: bool)                         // any task: cancelled, or an I/O error
    | Complete(id: Id, moved: bool)                         // any task: end of stream

  // ---- the actor -----------------------------------------------------------------

  function IdOf(n: nat): Id {
    "t" + Decimal(n)
  }

  function Publish(s: State, e: Event): State {
    s.(bus := s.bus + [e])
  }

  /** An unknown size is announced as zero. */
  function Shown(size: Staging.u64): nat {
    if size == Staging.UNKNOWN_SIZE then 0 else size
  }

  /** A fresh id and its record, announced on the bus. */
  function Register(s: State, incoming: bool, size: Staging.u64): State {
    var id := IdOf(s.nextSeq + 1);
    Publish(s.(nextSeq := s.nextSeq + 1, records := s.records[id := Record(incoming, size, Active, false)]),
            Added(id, incoming, Shown(size)))
  }

  function Spawn(s: State, incoming: bool, size: Staging.u64, task: Task): State {
    var s1 := Register(s, incoming, size);
    s1.(tasks := s1.tasks[IdOf(s1.nextSeq) := task])
  }

  /** The terminal state of a record, with its event; a failure sweeps the engine. */
  function Settle(s: State, id: Id, ok: bool): State {
    var s1 := if ok then s else s.(engine := Staging.Abort(s.engine, id).state);
    var s2 := if id in s1.records then s1.(records := s1.records[id := s1.records[id].(status := if ok then Finished else Failed)]) else s1;
    Publish(s2, if ok then Completed(id) else Broke(id))
  }

  // ---- the tasks -------------------------------------------------------------------

  function SetTask(s: State, id: Id, task: Task): State {
    s.(tasks := s.tasks[id := task])
  }

  function OpenStep(s: State, id: Id): State
    requires id in s.tasks && s.tasks[id].Opening? && id in s.records
  {
    var o := Staging.Start(s.engine, id, s.tasks[id].fileName, s.records[id].size);
    SetTask(s.(engine := o.state), id, if o.result.Ok? then Receiving(0) else Ended(false))
  }

  function ChunkStep(s: State, id: Id, data: Bytes): State
    requires id in s.tasks && s.tasks[id].Receiving? && id in s.records
  {
    var o := Staging.Write(s.engine, id, data);
    var s1 := s.(engine := o.state);
    if o.result.Err? then SetTask(s1, id, Ended(false))
    else
      var done := s.tasks[id].done + |data|;
      Publish(SetTask(s1, id, Receiving(done)), Progress(id, done, s.records[id].size))
  }

  /** A cancelled receiver aborts its staging itself; other failures leave the
      sweep to the actor. */
  function QuitStep(s: State, id: Id, cancelled: bool): State
    requires id in s.tasks && id in s.records
  {
    var s1 :=
      if s.tasks[id].Receiving? && cancelled then s.(engine := Staging.Abort(s.engine, id).state) else s;
    SetTask(s1, id, Ended(false))
  }

  function CompleteStep(s: State, id: Id, moved: bool): State
    requires id in s.tasks
  {
    if s.tasks[id].Receiving? then
      var o := Staging.Finish(s.engine, id);
      SetTask(s.(engine := o.state), id, Ended(o.result.Ok? && moved))
    else
      SetTask(s, id, Ended(true))
  }

  predicate Running(s: State, id: Id) {
    id in s.tasks && id in s.records && !s.tasks[id].Ended?
  }

  /** The receive loop hands over at most what the announced size still allows. */
  predicate Allowed(s: State, id: Id, data: Bytes)
    requires id in s.tasks && s.tasks[id].Receiving? && id in s.records
  {
    data != [] && (s.records[id].size != Staging.UNKNOWN_SIZE ==> s.tasks[id].done + |data| <= s.records[id].size)
  }

  function Next(s: State, step: Step): Option<State> {
    match step
    case SendEmpty => Some(Settle(Register(s, false, 0), IdOf(s.nextSeq + 1), true))
    case SendFile(size) => Some(Spawn(s, false, size, Sending(0)))
    case DialFailed => Some(Settle(Register(s, true, 0), IdOf(s.nextSeq + 1), false))
    case SpawnReceive(fileName, size) => Some(Spawn(s, true, size, Opening(fileName)))
    case Cancel(id) =>
      if id in s.records && s.records[id].status == Active then
        Some(s.(records := s.records[id := s.records[id].(cancel := true)]))
      else None
    case Outcome(id) =>
      if id in s.tasks && s.tasks[id].Ended? then
        Some(Settle(s.(tasks := s.tasks - {id}), id, s.tasks[id].ok))
      else None
    case Sent(id, n) =>
      if Running(s, id) && s.tasks[id].Sending? && n > 0 then
        var done := s.tasks[id].done + n;
        Some(Publish(SetTask(s, id, Sending(done)), Progress(id, done, s.records[id].size)))
      else None
    case Open(id) =>
      if Running(s, id) && s.tasks[id].Opening? then Some(OpenStep(s, id)) else None
    case Chunk(id, data) =>
      if Running(s, id) && s.tasks[id].Receiving? && Allowed(s, id, data) then Some(ChunkStep(s, id, data)) else None
    case Quit(id, cancelled) =>
      if Running(s, id) && !s.tasks[id].Opening? && (cancelled ==> s.records[id].cancel) then Some(QuitStep(s, id, cancelled))
      else None
    case Complete(id, moved) =>
      if Running(s, id) && !s.tasks[id].Opening? then Some(CompleteStep(s, id, moved)) else None
  }

  function Init(disk: Staging.Disk): State {
    State(0, map[], map[], [], Staging.State(disk, map[]))
  }

  function Run(disk: Staging.Disk, steps: seq<Step>): Option<State> {
    if steps == [] then Some(Init(disk))
    else match Run(disk, steps[..|steps| - 1])
      case None => None
      case Some(s) => Next(s, steps[|steps| - 1])
  }

  // ---- the life of one transfer, as the bus tells it ----------------------------------

  datatype Life = Unborn | Live(incoming: bool, total: nat, done: nat) | Over(ok: bool) | Wrong

  /** Added; then strictly growing progress, never past a known size when incoming;
      then at most one end, a success only when an incoming file of known size is all
      there; then nothing. */
  function Advance(l: Life, e: Event, id: Id): Life {
    if e.id != id then l
    else match e
      case Added(_, incoming, total) => if l.Unborn? then Live(incoming, total, 0) else Wrong
      case Progress(_, done, total) =>
        if l.Live? && done > l.done && (l.incoming && l.total != 0 ==> done <= l.total && total == l.total)
        then Live(l.incoming, l.total, done) else Wrong
      case Completed(_) => if l.Live? && (l.incoming && l.total != 0 ==> l.done == l.total) then Over(true) else Wrong
      case Broke(_) => if l.Live? then Over(false) else Wrong
  }

  function LifeOf(bus: seq<Event>, id: Id): Life {
    if bus == [] then Unborn else Advance(LifeOf(bus[..|bus| - 1], id), bus[|bus| - 1], id)
  }

  lemma LifeAppend(bus: seq<Event>, e: Event, id: Id)
    ensures LifeOf(bus + [e], id) == Advance(LifeOf(bus, id), e, id)
  {
    assert (bus + [e])[..|bus|] == bus;
  }

  // ---- the invariant -----------------------------------------------------------------

  ghost predicate Issued(s: State, id: Id) {
    exists k :: 1 <= k <= s.nextSeq && id == IdOf(k)
  }

  lemma NewIdIsFresh(s: State)
    ensures !Issued(s, IdOf(s.nextSeq + 1))
  {
    if Issued(s, IdOf(s.nextSeq + 1)) {
      var k :| 1 <= k <= s.nextSeq && IdOf(s.nextSeq + 1) == IdOf(k);
      assert IdOf(k)[1..] == Decimal(k) && IdOf(s.nextSeq + 1)[1..] == Decimal(s.nextSeq + 1);
      DecimalInjective(k, s.nextSeq + 1);
    }
  }

  /** What the bus has told of `id` so far. */
  predicate LifeMatches(s: State, id: Id) {
    var l := LifeOf(s.bus, id);
    if id !in s.records then l == Unborn
    else if s.records[id].status != Active then l == Over(s.records[id].status == Finished)
    else l.Live? && l.incoming == s.records[id].incoming && l.total == Shown(s.records[id].size) && match Lookup(s.tasks, id)
      case None => false
      case Some(Sending(done)) => l.done == done && !l.incoming
      case Some(Opening(_)) => l.done == 0 && l.incoming
      case Some(Receiving(done)) => l.done == done && l.incoming
      case Some(Ended(ok)) => ok && l.incoming && l.total != 0 ==> l.done == l.total
  }

  function Lookup(m: map<Id, Task>, id: Id): Option<Task> {
    if id in m then Some(m[id]) else None
  }

  /** Records, tasks, engine entries and the bus agree about `id`. */
  ghost predicate Fine(s: State, id: Id) {
    && (id in s.records ==> Issued(s, id))
    && (id in s.tasks <==> id in s.records && s.records[id].status == Active)
    && (id in s.engine.incoming ==> id in s.tasks && (s.tasks[id].Receiving? || s.tasks[id] == Ended(false)))
    && LifeMatches(s, id) && Counted(s, id)
  }

  /** A receiver's progress is what the engine has counted. */
  predicate Counted(s: State, id: Id) {
    id in s.engine.incoming && id in s.tasks && s.tasks[id].Receiving? && id in s.records ==>
      var t := s.engine.incoming[id];
      && t.fileSize == s.records[id].size
      && (t.fileSize != Staging.UNKNOWN_SIZE ==> t.received == s.tasks[id].done <= t.fileSize)
  }

  ghost predicate Inv(s: State) {
    forall id :: Fine(s, id)
  }

  /** Nothing about `o` differs but perhaps the bus. */
  predicate Same(s: State, s': State, o: Id) {
    && (o in s'.records <==> o in s.records) && (o in s.records ==> s'.records[o] == s.records[o])
    && (o in s'.tasks <==> o in s.tasks) && (o in s.tasks ==> s'.tasks[o] == s.tasks[o])
    && (o in s'.engine.incoming <==> o in s.engine.incoming)
    && (o in s.engine.incoming ==> s'.engine.incoming[o] == s.engine.incoming[o])
  }

  /** A step that touches only `id` and publishes at most one event, about it. */
  lemma TouchesOne(s: State, s': State, id: Id, published: seq<Event>)
    requires Inv(s) && Fine(s', id) && s'.nextSeq == s.nextSeq
    requires forall o :: o != id ==> Same(s, s', o)
    requires s'.bus == s.bus + published && |published| <= 1 && (published != [] ==> published[0].id == id)
    ensures Inv(s')
  {
    forall o
      ensures Fine(s', o)
    {
      assert Fine(s, o);
      if o != id {
        assert Same(s, s', o);
        if published == [] {
          assert s'.bus == s.bus;
        } else {
          assert s'.bus == s.bus + [published[0]];
          LifeAppend(s.bus, published[0], o);
        }
      }
    }
  }

  // ---- every step keeps it ---------------------------------------------------------------

  lemma RegisterKeeps(s: State, incoming: bool, size: Staging.u64, o: Id)
    requires Inv(s)
    ensures var s' := Register(s, incoming, size); var id := IdOf(s.nextSeq + 1);
      && id !in s.records && id !in s.tasks && id !in s.engine.incoming
      && LifeOf(s'.bus, id) == Live(incoming, Shown(size), 0) && Issued(s', id)
      && (o != id ==> Fine(s', o) && Same(s, s', o))
  {
    var id := IdOf(s.nextSeq + 1);
    NewIdIsFresh(s);
    assert Fine(s, id) && Fine(s, o);
    LifeAppend(s.bus, Added(id, incoming, Shown(size)), id);
    LifeAppend(s.bus, Added(id, incoming, Shown(size)), o);
    assert o != id && o in s.records ==> Issued(Register(s, incoming, size), o);
  }

  lemma SpawnKeeps(s: State, incoming: bool, size: Staging.u64, task: Task)
    requires Inv(s) && ((task == Sending(0) && !incoming) || (task.Opening? && incoming))
    ensures Inv(Spawn(s, incoming, size, task))
  {
    var s' := Spawn(s, incoming, size, task);
    forall o
      ensures Fine(s', o)
    {
      RegisterKeeps(s, incoming, size, o);
    }
  }

  /** Settling a transfer nobody runs touches its record and the bus. */
  lemma SettleShape(s: State, id: Id, ok: bool)
    requires id in s.records && id !in s.engine.incoming
    ensures Settle(s, id, ok) == s.(records := s.records[id := s.records[id].(status := if ok then Finished else Failed)],
                                    bus := s.bus + [if ok then Completed(id) else Broke(id)])
  {
  }

  lemma ShortLivedSelf(s: State, incoming: bool, ok: bool)
    requires Inv(s)
    ensures Fine(Settle(Register(s, incoming, 0), IdOf(s.nextSeq + 1), ok), IdOf(s.nextSeq + 1))
  {
    var s1, id := Register(s, incoming, 0), IdOf(s.nextSeq + 1);
    RegisterKeeps(s, incoming, 0, id);
    SettleShape(s1, id, ok);
    LifeAppend(s1.bus, if ok then Completed(id) else Broke(id), id);
    assert Issued(s1, id);
  }

  lemma ShortLivedOther(s: State, incoming: bool, ok: bool, o: Id)
    requires Inv(s) && o != IdOf(s.nextSeq + 1)
    ensures Fine(Settle(Register(s, incoming, 0), IdOf(s.nextSeq + 1), ok), o)
  {
    var s1, id := Register(s, incoming, 0), IdOf(s.nextSeq + 1);
    RegisterKeeps(s, incoming, 0, o);
    SettleShape(s1, id, ok);
    LifeAppend(s1.bus, if ok then Completed(id) else Broke(id), o);
    assert o in s1.records ==> Issued(s1, o);
  }

  /** A transfer over as soon as it is announced. */
  lemma ShortLived(s: State, incoming: bool, ok: bool)
    requires Inv(s)
    ensures Inv(Settle(Register(s, incoming, 0), IdOf(s.nextSeq + 1), ok))
  {
    var s' := Settle(Register(s, incoming, 0), IdOf(s.nextSeq + 1), ok);
    forall o
      ensures Fine(s', o)
    {
      if o == IdOf(s.nextSeq + 1) {
        ShortLivedSelf(s, incoming, ok);
      } else {
        ShortLivedOther(s, incoming, ok, o);
      }
    }
  }

  lemma CancelKeeps(s: State, id: Id)
    requires Inv(s) && id in s.records && s.records[id].status == Active
    ensures Inv(s.(records := s.records[id := s.records[id].(cancel := true)]))
  {
    assert Fine(s, id);
    TouchesOne(s, s.(records := s.records[id := s.records[id].(cancel := true)]), id, []);
  }

  lemma OutcomeKeeps(s: State, id: Id)
    requires Inv(s) && id in s.tasks && s.tasks[id].Ended?
    ensures Inv(Settle(s.(tasks := s.tasks - {id}), id, s.tasks[id].ok))
  {
    assert Fine(s, id);
    var ok := s.tasks[id].ok;
    var e := if ok then Completed(id) else Broke(id);
    LifeAppend(s.bus, e, id);
    TouchesOne(s, Settle(s.(tasks := s.tasks - {id}), id, ok), id, [e]);
  }

  lemma SentKeeps(s: State, id: Id, n: nat)
    requires Inv(s) && Next(s, Sent(id, n)).Some?
    ensures Inv(Next(s, Sent(id, n)).value)
  {
    assert Fine(s, id);
    var e := Progress(id, s.tasks[id].done + n, s.records[id].size);
    LifeAppend(s.bus, e, id);
    TouchesOne(s, Next(s, Sent(id, n)).value, id, [e]);
  }

  lemma OpenKeeps(s: State, id: Id)
    requires Inv(s) && Running(s, id) && s.tasks[id].Opening?
    ensures Inv(OpenStep(s, id))
  {
    assert Fine(s, id);
    TouchesOne(s, OpenStep(s, id), id, []);
  }

  lemma WriteCounts(e: Staging.State, id: Id, data: Bytes, done: nat)
    requires Staging.Write(e, id, data).result.Ok?
    requires e.incoming[id].fileSize != Staging.UNKNOWN_SIZE ==> e.incoming[id].received + |data| == done <= e.incoming[id].fileSize
    ensures var e' := Staging.Write(e, id, data).state;
      && id in e'.incoming && e'.incoming[id].fileSize == e.incoming[id].fileSize
      && (e.incoming[id].fileSize != Staging.UNKNOWN_SIZE ==> e'.incoming[id].received == done)
  {
  }

  lemma ChunkLives(s: State, id: Id, data: Bytes)
    requires Fine(s, id) && Running(s, id) && s.tasks[id].Receiving? && Allowed(s, id, data)
    ensures LifeMatches(ChunkStep(s, id, data), id)
  {
    LifeAppend(s.bus, Progress(id, s.tasks[id].done + |data|, s.records[id].size), id);
  }

  lemma ChunkCounted(s: State, id: Id, data: Bytes)
    requires Fine(s, id) && Running(s, id) && s.tasks[id].Receiving? && Allowed(s, id, data)
    ensures Fine(ChunkStep(s, id, data), id)
  {
    ChunkLives(s, id, data);
    if Staging.Write(s.engine, id, data).result.Ok? {
      WriteCounts(s.engine, id, data, s.tasks[id].done + |data|);
    }
    assert Counted(ChunkStep(s, id, data), id);
  }

  lemma ChunkKeeps(s: State, id: Id, data: Bytes)
    requires Inv(s) && Running(s, id) && s.tasks[id].Receiving? && Allowed(s, id, data)
    ensures Inv(ChunkStep(s, id, data))
  {
    assert Fine(s, id);
    ChunkCounted(s, id, data);
    var s' := ChunkStep(s, id, data);
    if Staging.Write(s.engine, id, data).result.Ok? {
      TouchesOne(s, s', id, [Progress(id, s.tasks[id].done + |data|, s.records[id].size)]);
    } else {
      TouchesOne(s, s', id, []);
    }
  }

  lemma QuitKeeps(s: State, id: Id, cancelled: bool)
    requires Inv(s) && Running(s, id)
    ensures Inv(QuitStep(s, id, cancelled))
  {
    assert Fine(s, id);
    TouchesOne(s, QuitStep(s, id, cancelled), id, []);
  }

  lemma CompleteKeeps(s: State, id: Id, moved: bool)
    requires Inv(s) && Running(s, id) && !s.tasks[id].Opening?
    ensures Inv(CompleteStep(s, id, moved))
  {
    assert Fine(s, id);
    TouchesOne(s, CompleteStep(s, id, moved), id, []);
  }

  lemma StepKeeps(s: State, step: Step)
    requires Inv(s) && Next(s, step).Some?
    ensures Inv(Next(s, step).value)
  {
    match step {
      case SendEmpty => ShortLived(s, false, true);
      case SendFile(size) => SpawnKeeps(s, false, size, Sending(0));
      case DialFailed => ShortLived(s, true, false);
      case SpawnReceive(fileName, size) => SpawnKeeps(s, true, size, Opening(fileName));
      case Cancel(id) => CancelKeeps(s, id);
      case Outcome(id) => OutcomeKeeps(s, id);
      case Sent(id, n) => SentKeeps(s, id, n);
      case Open(id) => OpenKeeps(s, id);
      case Chunk(id, data) => ChunkKeeps(s, id, data);
      case Quit(id, cancelled) => QuitKeeps(s, id, cancelled);
      case Complete(id, moved) => CompleteKeeps(s, id, moved);
    }
  }

  lemma {:induction false} RunKeeps(disk: Staging.Disk, steps: seq<Step>)
    requires Run(disk, steps).Some?
    ensures Inv(Run(disk, steps).value)
  {
    if steps != [] {
      RunKeeps(disk, steps[..|steps| - 1]);
      StepKeeps(Run(disk, steps[..|steps| - 1]).value, steps[|steps| - 1]);
    }
  }

  // ---- the theorems -----------------------------------------------------------------------

  /** In every run, every transfer's events on the bus are Added, then growing
      progress, then at most one end; and every staging entry belongs to a transfer
      that is still active. */
  lemma WellLived(disk: Staging.Disk, steps: seq<Step>, id: Id)
    requires Run(disk, steps).Some?
    ensures var s := Run(disk, steps).value;
      && LifeOf(s.bus, id) != Wrong
      && (id in s.records <==> LifeOf(s.bus, id) != Unborn)
      && (id in s.records && s.records[id].status == Finished <==> LifeOf(s.bus, id) == Over(true))
      && (id in s.records && s.records[id].status == Failed <==> LifeOf(s.bus, id) == Over(false))
      && (id in s.engine.incoming ==> id in s.records && s.records[id].status == Active)
  {
    RunKeeps(disk, steps);
    assert Fine(Run(disk, steps).value, id);
  }

  /** Ids never repeat: a registration never replaces a record. */
  lemma IdsAreFresh(disk: Staging.Disk, steps: seq<Step>)
    requires Run(disk, steps).Some?
    ensures var s := Run(disk, steps).value;
            IdOf(s.nextSeq + 1) !in s.records && IdOf(s.nextSeq + 1) !in s.engine.incoming
  {
    var s := Run(disk, steps).value;
    RunKeeps(disk, steps);
    NewIdIsFresh(s);
    assert Fine(s, IdOf(s.nextSeq + 1));
  }

  /** Terminal states are absorbing. */
  lemma TerminalStays(s: State, step: Step, id: Id)
    requires Inv(s) && id in s.records && s.records[id].status != Active && Next(s, step).Some?
    ensures id in Next(s, step).value.records && Next(s, step).value.records[id].status == s.records[id].status
  {
    assert Fine(s, id);
    NewIdIsFresh(s);
  }
}
