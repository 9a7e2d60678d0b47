/** Which runs of the client deliver the right replies. */
module IpcClientProof {
  import opened Prelude
  import opened IpcClient

  // ---- what holds in every run ---------------------------------------------

  predicate HoldsLock(pc: Pc) {
    pc == Locked || pc == Queued
  }

  /** A call in this place returns an error, whatever its channel holds, once the
      connection is marked dead. */
  predicate Doomed(pc: Pc) {
    pc == Queued || pc == Written || pc.FailSet? || pc.FailDrain? || (pc.Done? && !pc.result.Replied?)
  }

  predicate Fit(k: Config, c: Caller) {
    c in k.callers && c !in k.unfit
  }

  predicate AllFrame(k: Config) {
    forall c :: c in k.callers ==> c !in k.unfit
  }

  ghost predicate AllFit(k: Config, cs: seq<Caller>) {
    forall i :: 0 <= i < |cs| ==> Fit(k, cs[i])
  }

  ghost predicate Shared(k: Config, s: State) {
    && s.pc.Keys == k.callers && s.slot.Keys == k.callers
    && (forall i :: 0 <= i < |s.pending| ==> s.pending[i] in k.callers)
    && AllFit(k, s.net.wire) && AllFit(k, s.net.replies) && (s.reader.Holding? ==> Fit(k, s.reader.reply))
    && (s.drained || s.reader == ExitDrain ==> s.dead)
  }

  /** One call's part: the lock is its own while it writes; it is never forgotten,
      for without a reply it is in the queue; after a drain only doomed calls are
      queued; and only framed requests are ever answered. */
  predicate CallOk(k: Config, s: State, c: Caller) {
    c in s.pc && c in s.slot ==>
      var pc, slot := s.pc[c], s.slot[c];
      && (HoldsLock(pc) <==> s.lock == Some(c))
      && (pc.FailSet? || pc.FailDrain? ==> !pc.result.Replied? && pc.result != Dropped)
      && (pc.FailDrain? ==> s.dead)
      && ((pc == Queued || pc == Written || pc == Waiting) && slot == Empty ==> c in s.pending)
      && (s.drained && c in s.pending ==> Doomed(pc))
      && (slot.GotReply? ==> Fit(k, slot.of))
      && (pc == Written || pc == Waiting ==> Fit(k, c))
      && (pc.Done? && pc.result.Replied? ==> Fit(k, c) && Fit(k, pc.result.of))
      && (pc == Done(Dropped) ==> Fit(k, c) && c in k.fickle)
  }

  ghost predicate Inv(k: Config, s: State) {
    Shared(k, s) && forall c :: CallOk(k, s, c)
  }

  lemma InAppend(cs: seq<Caller>, x: Caller, d: Caller)
    ensures d in cs + [x] <==> d in cs || d == x
  {
  }

  lemma InTail(cs: seq<Caller>, d: Caller)
    requires cs != []
    ensures d in cs <==> d == cs[0] || d in cs[1..]
  {
    assert cs == [cs[0]] + cs[1..];
  }

  lemma EnqueueKeeps(k: Config, s: State, c: Caller)
    requires Inv(k, s) && At(s, c, Locked)
    ensures Inv(k, BeginStep(s, c).value)
  {
    var s' := BeginStep(s, c).value;
    forall d
      ensures CallOk(k, s', d)
    {
      assert CallOk(k, s, d) && CallOk(k, s, c);
      InAppend(s.pending, c, d);
    }
  }

  /** A step that moves one call and leaves queue and channels alone. */
  lemma MoveKeeps(k: Config, s: State, s': State, c: Caller)
    requires Inv(k, s) && Shared(k, s') && CallOk(k, s', c)
    requires c in s'.pc && s'.pc == s.pc[c := s'.pc[c]]
    requires s'.slot == s.slot && s'.pending == s.pending && s'.drained == s.drained && (s.dead ==> s'.dead)
    requires forall d :: d != c ==> (s'.lock == Some(d) <==> s.lock == Some(d))
    ensures Inv(k, s')
  {
    forall d
      ensures CallOk(k, s', d)
    {
      assert CallOk(k, s, d);
    }
  }

  lemma BeginKeeps(k: Config, s: State, c: Caller)
    requires Inv(k, s) && BeginStep(s, c).Some?
    ensures Inv(k, BeginStep(s, c).value)
  {
    assert CallOk(k, s, c);
    if At(s, c, Locked) {
      EnqueueKeeps(k, s, c);
    } else {
      MoveKeeps(k, s, BeginStep(s, c).value, c);
    }
  }

  lemma OnWireFits(k: Config, net: Net, c: Caller)
    requires AllFit(k, net.wire) && Fit(k, c)
    ensures AllFit(k, OnWire(net, c).wire)
  {
  }

  lemma WriteShared(k: Config, s: State, c: Caller, fails: bool)
    requires Shared(k, s) && WriteStep(k, s, c, fails).Some?
    ensures Shared(k, WriteStep(k, s, c, fails).value)
  {
    if c !in k.unfit {
      OnWireFits(k, s.net, c);
    }
  }

  lemma WriteOk(k: Config, s: State, c: Caller, fails: bool)
    requires Shared(k, s) && CallOk(k, s, c) && WriteStep(k, s, c, fails).Some?
    ensures CallOk(k, WriteStep(k, s, c, fails).value, c)
  {
  }

  lemma WriteKeeps(k: Config, s: State, c: Caller, fails: bool)
    requires Inv(k, s) && WriteStep(k, s, c, fails).Some?
    ensures Inv(k, WriteStep(k, s, c, fails).value)
  {
    assert CallOk(k, s, c);
    WriteShared(k, s, c, fails);
    WriteOk(k, s, c, fails);
    MoveKeeps(k, s, WriteStep(k, s, c, fails).value, c);
  }

  lemma CheckKeeps(k: Config, s: State, c: Caller)
    requires Inv(k, s) && CheckStep(s, c).Some?
    ensures Inv(k, CheckStep(s, c).value)
  {
    assert CallOk(k, s, c);
    MoveKeeps(k, s, CheckStep(s, c).value, c);
  }

  lemma ReceiveKeeps(k: Config, s: State, c: Caller)
    requires Inv(k, s) && ReceiveStep(s, c).Some?
    ensures Inv(k, ReceiveStep(s, c).value)
  {
    assert CallOk(k, s, c);
    MoveKeeps(k, s, ReceiveStep(s, c).value, c);
  }

  lemma TimeOutKeeps(k: Config, s: State, c: Caller)
    requires Inv(k, s) && At(s, c, Waiting)
    ensures Inv(k, Goto(s, c, FailSet(TimedOut)))
  {
    assert CallOk(k, s, c);
    MoveKeeps(k, s, Goto(s, c, FailSet(TimedOut)), c);
  }

  lemma AbandonKeeps(k: Config, s: State, c: Caller)
    requires Inv(k, s) && AbandonStep(s, c).Some?
    ensures Inv(k, AbandonStep(s, c).value)
  {
    assert CallOk(k, s, c);
    MoveKeeps(k, s, AbandonStep(s, c).value, c);
  }

  lemma CutOk(k: Config, s: State, c: Caller, sent: Extent)
    requires Shared(k, s) && CallOk(k, s, c) && CutStep(k, s, c, sent).Some?
    ensures var s' := CutStep(k, s, c, sent).value; Shared(k, s') && CallOk(k, s', c)
  {
  }

  lemma CutKeeps(k: Config, s: State, c: Caller, sent: Extent)
    requires Inv(k, s) && CutStep(k, s, c, sent).Some?
    ensures Inv(k, CutStep(k, s, c, sent).value)
  {
    assert CallOk(k, s, c);
    CutOk(k, s, c, sent);
    MoveKeeps(k, s, CutStep(k, s, c, sent).value, c);
  }

  lemma DrainKeeps(k: Config, s: State)
    requires Inv(k, s) && s.dead
    ensures Inv(k, Drain(s))
  {
    forall d
      ensures CallOk(k, Drain(s), d)
    {
      assert CallOk(k, s, d);
    }
  }

  lemma FailKeeps(k: Config, s: State, c: Caller)
    requires Inv(k, s) && FailStep(s, c).Some?
    ensures Inv(k, FailStep(s, c).value)
  {
    assert CallOk(k, s, c);
    if s.pc[c].FailSet? {
      MoveKeeps(k, s, FailStep(s, c).value, c);
    } else {
      var s1 := Goto(s, c, Done(s.pc[c].result));
      MoveKeeps(k, s, s1, c);
      DrainKeeps(k, s1);
    }
  }

  lemma PopKeeps(k: Config, s: State)
    requires Inv(k, s) && s.reader.Holding? && s.pending != []
    ensures Inv(k, ReadStep(s).value)
  {
    var s' := ReadStep(s).value;
    assert s'.slot.Keys == k.callers;
    forall d
      ensures CallOk(k, s', d)
    {
      assert CallOk(k, s, d);
      InTail(s.pending, d);
    }
  }

  /** A step that only moves the reader, the flag or the wire. */
  lemma QuietKeeps(k: Config, s: State, s': State)
    requires Inv(k, s) && Shared(k, s')
    requires s'.pc == s.pc && s'.slot == s.slot && s'.pending == s.pending && s'.lock == s.lock
    requires s'.drained == s.drained && (s.dead ==> s'.dead)
    ensures Inv(k, s')
  {
    forall d
      ensures CallOk(k, s', d)
    {
      assert CallOk(k, s, d);
    }
  }

  lemma ReadKeeps(k: Config, s: State)
    requires Inv(k, s) && ReadStep(s).Some?
    ensures Inv(k, ReadStep(s).value)
  {
    if s.reader == ExitDrain {
      QuietKeeps(k, s, s.(reader := Gone));
      DrainKeeps(k, s.(reader := Gone));
    } else if s.reader.Holding? && s.pending != [] {
      PopKeeps(k, s);
    } else {
      QuietKeeps(k, s, ReadStep(s).value);
    }
  }

  lemma StepKeeps(k: Config, s: State, step: Step)
    requires Inv(k, s) && Next(k, s, step).Some?
    ensures Inv(k, Next(k, s, step).value)
  {
    match step {
      case Begin(c) => BeginKeeps(k, s, c);
      case Write(c, fails) => WriteKeeps(k, s, c, fails);
      case Check(c) => CheckKeeps(k, s, c);
      case Receive(c) => ReceiveKeeps(k, s, c);
      case TimeOut(c) => TimeOutKeeps(k, s, c);
      case Abandon(c) => AbandonKeeps(k, s, c);
      case Cut(c, sent) => CutKeeps(k, s, c, sent);
      case Fail(c) => FailKeeps(k, s, c);
      case Serve => QuietKeeps(k, s, Next(k, s, step).value);
      case Read => ReadKeeps(k, s);
      case Stop => QuietKeeps(k, s, Next(k, s, step).value);
    }
  }

  lemma {:induction false} RunKeeps(k: Config, steps: seq<Step>)
    requires Run(k, steps).Some?
    ensures Inv(k, Run(k, steps).value)
  {
    if steps != [] {
      RunKeeps(k, steps[..|steps| - 1]);
      StepKeeps(k, Run(k, steps[..|steps| - 1]).value, steps[|steps| - 1]);
    }
  }

  /** Nobody hangs on a dead connection: once the queue was drained, a call that
      still waits has something in its channel to receive. */
  lemma NobodyHangs(k: Config, steps: seq<Step>, c: Caller)
    requires Run(k, steps).Some? && At(Run(k, steps).value, c, Waiting)
    ensures var s := Run(k, steps).value; s.drained ==> ReceiveStep(s, c).Some?
  {
    RunKeeps(k, steps);
    assert CallOk(k, Run(k, steps).value, c);
  }

  /** A call that a drain finds outside the queue's reach, or that joins the queue
      afterwards, is in the queue only to return an error. */
  lemma AfterDrain(k: Config, steps: seq<Step>, i: nat)
    requires Run(k, steps).Some? && Run(k, steps).value.drained && i < |Run(k, steps).value.pending|
    ensures var s := Run(k, steps).value;
            s.dead && s.pending[i] in s.pc && Doomed(s.pc[s.pending[i]])
  {
    RunKeeps(k, steps);
    assert CallOk(k, Run(k, steps).value, Run(k, steps).value.pending[i]);
  }

  predicate ByCaller(step: Step) {
    !step.Serve? && !step.Read? && !step.Stop?
  }

  /** One call moves, and at most puts its request on the wire. */
  predicate Moves(s: State, s': State, c: Caller) {
    && c in s.pc && c in s'.pc && s'.pc == s.pc[c := s'.pc[c]] && s'.slot == s.slot
    && s'.net.replies == s.net.replies && s'.reader == s.reader && s'.dead == s.dead && s'.drained == s.drained
    && (s'.net.wire == s.net.wire || (s'.net.wire == s.net.wire + [c] && !Unwritten(s'.pc[c])))
  }

  /** A call that has put nothing on the wire. */
  predicate Unwritten(pc: Pc) {
    pc == Start || pc == WantLock || pc == Locked || pc == Queued || pc == Done(Dropped)
  }

  lemma BeginMoves(s: State, c: Caller)
    requires BeginStep(s, c).Some?
    ensures Moves(s, BeginStep(s, c).value, c)
  {
  }

  lemma WriteMoves(k: Config, s: State, c: Caller, fails: bool)
    requires WriteStep(k, s, c, fails).Some?
    ensures Moves(s, WriteStep(k, s, c, fails).value, c)
  {
  }

  lemma CutMoves(k: Config, s: State, c: Caller, sent: Extent)
    requires CutStep(k, s, c, sent).Some?
    ensures Moves(s, CutStep(k, s, c, sent).value, c)
  {
  }

  lemma AbandonMoves(s: State, c: Caller)
    requires AbandonStep(s, c).Some?
    ensures Moves(s, AbandonStep(s, c).value, c)
  {
  }

  lemma CallerMoves(k: Config, s: State, step: Step)
    requires Next(k, s, step).Some? && ByCaller(step) && !step.Fail?
    ensures Moves(s, Next(k, s, step).value, step.c)
  {
    match step {
      case Begin(c) => BeginMoves(s, c);
      case Write(c, fails) => WriteMoves(k, s, c, fails);
      case Cut(c, sent) => CutMoves(k, s, c, sent);
      case Abandon(c) => AbandonMoves(s, c);
      case _ =>
    }
  }

  lemma FailMoves(s: State, c: Caller)
    requires FailStep(s, c).Some?
    ensures var s' := FailStep(s, c).value;
      && c in s.pc && c in s'.pc && s'.pc == s.pc[c := s'.pc[c]] && (s.dead ==> s'.dead)
      && (s'.pc[c] == FailDrain(s.pc[c].result) || s'.pc[c] == Done(s.pc[c].result))
      && s'.net.wire == s.net.wire && s'.net.replies == s.net.replies && s'.reader == s.reader
      && (s'.slot == s.slot || s'.slot == Drain(s).slot)
  {
  }

  lemma MachineMoves(k: Config, s: State, step: Step)
    requires Next(k, s, step).Some? && !ByCaller(step)
    ensures var s' := Next(k, s, step).value; s'.pc == s.pc && (s.dead ==> s'.dead)
  {
  }

  lemma OthersStep(k: Config, s: State, step: Step, c: Caller)
    requires c in s.pc && Next(k, s, step).Some? && (ByCaller(step) ==> step.c != c)
    ensures var s' := Next(k, s, step).value; c in s'.pc && s'.pc[c] == s.pc[c] && (s.dead ==> s'.dead)
  {
    if step.Fail? {
      FailMoves(s, step.c);
    } else if ByCaller(step) {
      CallerMoves(k, s, step);
    } else {
      MachineMoves(k, s, step);
    }
  }

  lemma DoomedWrite(k: Config, s: State, c: Caller, fails: bool)
    requires WriteStep(k, s, c, fails).Some?
    ensures Doomed(WriteStep(k, s, c, fails).value.pc[c])
  {
  }

  lemma DoomedCut(k: Config, s: State, c: Caller, sent: Extent)
    requires CutStep(k, s, c, sent).Some?
    ensures Doomed(CutStep(k, s, c, sent).value.pc[c])
  {
  }

  lemma DoomedStep(k: Config, s: State, step: Step, c: Caller)
    requires CallOk(k, s, c) && s.dead && c in s.pc && c in s.slot && Doomed(s.pc[c]) && Next(k, s, step).Some?
    requires ByCaller(step) && step.c == c
    ensures var s' := Next(k, s, step).value; s'.dead && c in s'.pc && Doomed(s'.pc[c])
  {
    if step.Fail? {
      FailMoves(s, c);
    } else {
      CallerMoves(k, s, step);
      if step.Write? {
        DoomedWrite(k, s, c, step.fails);
      } else if step.Cut? {
        DoomedCut(k, s, c, step.sent);
      }
    }
  }

  /** And an error it is: a doomed call on a dead connection never reports a reply. */
  lemma DoomedStays(k: Config, s: State, step: Step, c: Caller)
    requires Inv(k, s) && s.dead && c in s.pc && Doomed(s.pc[c]) && Next(k, s, step).Some?
    ensures var s' := Next(k, s, step).value; s'.dead && c in s'.pc && Doomed(s'.pc[c])
  {
    assert CallOk(k, s, c);
    if ByCaller(step) && step.c == c {
      DoomedStep(k, s, step, c);
    } else {
      OthersStep(k, s, step, c);
    }
  }

  // ---- when every request fits: queue order is wire order -------------------

  /** The replies on their way, oldest first. */
  function Due(s: State): seq<Caller> {
    (if s.reader.Holding? then [s.reader.reply] else []) + s.net.replies + s.net.wire
  }

  /** The queue is the replies due, in order; then, while the wire still takes
      requests, at most the call that is writing. */
  ghost predicate Aligned(s: State) {
    var n := |Due(s)|;
    && n <= |s.pending| && s.pending[..n] == Due(s)
    && (forall c :: c in s.pc && s.pc[c] == Queued ==> n < |s.pending| && s.pending[|s.pending| - 1] == c)
    && (!s.net.broken && !s.net.torn && n < |s.pending| ==>
          |s.pending| == n + 1 && s.pending[n] in s.pc && s.pc[s.pending[n]] == Queued)
  }

  /** A wrong reply only ever reaches a call that will not look at it. */
  predicate CallRight(s: State, c: Caller) {
    c in s.pc && c in s.slot ==>
      && (s.slot[c].GotReply? && s.slot[c].of != c ==> s.drained && Doomed(s.pc[c]))
      && (s.pc[c].Done? && s.pc[c].result.Replied? ==> s.pc[c].result.of == c)
  }

  ghost predicate Right(s: State) {
    forall c :: CallRight(s, c)
  }

  /** A step that moves at most call `c`, which is not writing, and does not touch
      queue or wire. */
  lemma AlignedMove(s: State, s': State, c: Caller)
    requires Aligned(s) && c in s.pc && c in s'.pc && s'.pc == s.pc[c := s'.pc[c]]
    requires s'.pending == s.pending && s'.net.broken == s.net.broken && s'.net.torn == s.net.torn && Due(s') == Due(s)
    requires s'.pc[c] != Queued && s.pc[c] != Queued
    ensures Aligned(s')
  {
  }

  /** The one queued call is the holder of the lock. */
  lemma OneQueued(k: Config, s: State, c: Caller, d: Caller)
    requires Inv(k, s) && c in s.pc && d in s.pc && HoldsLock(s.pc[c]) && HoldsLock(s.pc[d])
    ensures c == d
  {
    assert CallOk(k, s, c) && CallOk(k, s, d);
  }

  lemma AlignedEnqueue(k: Config, s: State, c: Caller)
    requires Inv(k, s) && Aligned(s) && At(s, c, Locked)
    ensures Aligned(BeginStep(s, c).value)
  {
    var s', n := BeginStep(s, c).value, |Due(s)|;
    forall d | d in s.pc && s.pc[d] == Queued
      ensures d == c
    {
      OneQueued(k, s, c, d);
    }
    assert Due(s') == Due(s) && s'.pending[..n] == s.pending[..n];
    assert forall i :: n <= i < |s.pending| ==> s'.pending[i] == s.pending[i];
  }

  lemma AlignedWrite(k: Config, s: State, c: Caller, fails: bool)
    requires AllFrame(k) && Inv(k, s) && Aligned(s) && WriteStep(k, s, c, fails).Some?
    ensures Aligned(WriteStep(k, s, c, fails).value)
  {
    AlignedSent(k, s, WriteStep(k, s, c, fails).value, c);
  }

  /** The writer is through: its request is on the wire, or the wire is spoilt. */
  lemma AlignedSent(k: Config, s: State, s': State, c: Caller)
    requires Inv(k, s) && Aligned(s) && At(s, c, Queued) && c in s'.pc && s'.pc == s.pc[c := s'.pc[c]] && s'.pc[c] != Queued
    requires s'.pending == s.pending && s'.net.replies == s.net.replies && s'.reader == s.reader
    requires (s.net.broken ==> s'.net.broken) && (s.net.torn ==> s'.net.torn)
    requires (s'.net.wire == s.net.wire + [c] && !s.net.broken && !s.net.torn) || (s'.net.wire == s.net.wire && (s'.net.broken || s'.net.torn))
    ensures Aligned(s')
  {
    forall d | d in s.pc && s.pc[d] == Queued
      ensures d == c
    {
      OneQueued(k, s, c, d);
    }
    if s'.net.wire == s.net.wire {
      assert Due(s') == Due(s);
    } else {
      assert Due(s') == Due(s) + [c];
      assert s.pending == s.pending[..|Due(s)|] + [c];
    }
  }

  /** A write dropped after a byte went out keeps queue and wire in step. */
  lemma AlignedCut(k: Config, s: State, c: Caller, sent: Extent)
    requires Inv(k, s) && Aligned(s) && CutStep(k, s, c, sent).Some? && sent != Nothing
    ensures Aligned(CutStep(k, s, c, sent).value)
  {
    AlignedSent(k, s, CutStep(k, s, c, sent).value, c);
  }

  lemma AlignedAbandon(s: State, c: Caller)
    requires Aligned(s) && AbandonStep(s, c).Some?
    ensures Aligned(AbandonStep(s, c).value)
  {
    AlignedMove(s, AbandonStep(s, c).value, c);
  }

  lemma AlignedTake(s: State)
    requires Aligned(s) && s.reader == Idle && s.net.replies != []
    ensures Aligned(ReadStep(s).value)
  {
    assert s.net.replies == [s.net.replies[0]] + s.net.replies[1..];
    assert Due(ReadStep(s).value) == Due(s);
  }

  /** The reply at hand belongs to the head of the queue. */
  lemma HeadIsDue(s: State)
    requires Aligned(s) && s.reader.Holding?
    ensures s.pending != [] && s.pending[0] == s.reader.reply
  {
    assert Due(s)[0] == s.reader.reply && s.pending[..|Due(s)|][0] == s.pending[0];
  }

  lemma AlignedPop(s: State)
    requires Aligned(s) && s.reader.Holding?
    ensures Aligned(ReadStep(s).value)
  {
    HeadIsDue(s);
    var s', n := ReadStep(s).value, |Due(s)|;
    assert Due(s') == Due(s)[1..];
    assert s'.pending[..n - 1] == s.pending[..n][1..];
    assert forall i :: n - 1 <= i < |s'.pending| ==> s'.pending[i] == s.pending[i + 1];
  }

  lemma AlignedServe(s: State)
    requires Aligned(s) && s.net.wire != []
    ensures Aligned(s.(net := Served(s.net)))
  {
    var s' := s.(net := Served(s.net));
    assert s.net.wire == [s.net.wire[0]] + s.net.wire[1..];
    assert Due(s') == Due(s);
  }

  lemma AlignedRead(s: State)
    requires Aligned(s) && s.reader != ExitDrain && ReadStep(s).Some?
    ensures Aligned(ReadStep(s).value)
  {
    if s.reader == Idle {
      AlignedTake(s);
    } else if s.reader.Holding? {
      AlignedPop(s);
    } else {
      assert Due(ReadStep(s).value) == Due(s);
    }
  }

  lemma AlignedBegin(k: Config, s: State, c: Caller)
    requires Inv(k, s) && Aligned(s) && BeginStep(s, c).Some?
    ensures Aligned(BeginStep(s, c).value)
  {
    if At(s, c, Locked) {
      AlignedEnqueue(k, s, c);
    } else {
      AlignedMove(s, BeginStep(s, c).value, c);
    }
  }

  predicate Ending(step: Step) {
    step.Check? || step.Receive? || step.TimeOut?
  }

  /** The one step that leaves a slot with nothing behind it. */
  predicate Skipping(step: Step) {
    step.Cut? && step.sent == Nothing
  }

  lemma AlignedEnding(k: Config, s: State, step: Step)
    requires Aligned(s) && Ending(step) && Next(k, s, step).Some?
    ensures Aligned(Next(k, s, step).value)
  {
    AlignedMove(s, Next(k, s, step).value, step.c);
  }

  lemma AlignedFail(s: State, c: Caller)
    requires Aligned(s) && c in s.pc && s.pc[c].FailSet?
    ensures Aligned(FailStep(s, c).value)
  {
    AlignedMove(s, FailStep(s, c).value, c);
  }

  lemma AlignedCaller(k: Config, s: State, step: Step)
    requires AllFrame(k) && Inv(k, s) && Aligned(s) && ByCaller(step) && !Skipping(step) && Next(k, s, step).Some?
    ensures var s' := Next(k, s, step).value; s'.drained || Aligned(s')
  {
    match step {
      case Begin(c) => AlignedBegin(k, s, c);
      case Write(c, fails) => AlignedWrite(k, s, c, fails);
      case Cut(c, sent) => AlignedCut(k, s, c, sent);
      case Abandon(c) => AlignedAbandon(s, c);
      case Fail(c) => if s.pc[c].FailSet? { AlignedFail(s, c); }
      case _ => AlignedEnding(k, s, step);
    }
  }

  lemma AlignedStep(k: Config, s: State, step: Step)
    requires AllFrame(k) && Inv(k, s) && Aligned(s) && !Skipping(step) && Next(k, s, step).Some?
    ensures var s' := Next(k, s, step).value; s'.drained || Aligned(s')
  {
    match step {
      case Serve => AlignedServe(s);
      case Read => if s.reader != ExitDrain { AlignedRead(s); }
      case Stop => assert Due(s.(reader := ExitSet)) == Due(s);
      case _ => AlignedCaller(k, s, step);
    }
  }

  lemma RightMove(s: State, s': State, c: Caller)
    requires Right(s) && CallRight(s', c) && c in s'.pc && s'.pc == s.pc[c := s'.pc[c]]
    requires s'.slot == s.slot && s'.drained == s.drained
    ensures Right(s')
  {
    forall d
      ensures CallRight(s', d)
    {
      assert CallRight(s, d);
    }
  }

  lemma RightDrain(s: State)
    requires Right(s)
    ensures Right(Drain(s))
  {
    forall d
      ensures CallRight(Drain(s), d)
    {
      assert CallRight(s, d);
    }
  }

  lemma RightFail(s: State, c: Caller)
    requires Right(s) && FailStep(s, c).Some? && !s.pc[c].result.Replied?
    ensures Right(FailStep(s, c).value)
  {
    assert CallRight(s, c);
    if s.pc[c].FailSet? {
      RightMove(s, FailStep(s, c).value, c);
    } else {
      RightMove(s, Goto(s, c, Done(s.pc[c].result)), c);
      RightDrain(Goto(s, c, Done(s.pc[c].result)));
    }
  }

  lemma RightRead(k: Config, s: State)
    requires Inv(k, s) && (s.drained || Aligned(s)) && Right(s) && ReadStep(s).Some?
    ensures Right(ReadStep(s).value)
  {
    if s.reader == ExitDrain {
      assert forall c :: CallRight(s.(reader := Gone), c) by {
        forall c ensures CallRight(s.(reader := Gone), c) { assert CallRight(s, c); }
      }
      RightDrain(s.(reader := Gone));
    } else {
      if s.reader.Holding? && !s.drained {
        HeadIsDue(s);
      }
      forall c
        ensures CallRight(ReadStep(s).value, c)
      {
        assert CallRight(s, c) && CallOk(k, s, c);
      }
    }
  }

  lemma RightEnding(k: Config, s: State, step: Step)
    requires Inv(k, s) && Right(s) && Ending(step) && Next(k, s, step).Some?
    ensures Right(Next(k, s, step).value)
  {
    assert CallRight(s, step.c) && CallOk(k, s, step.c);
    RightMove(s, Next(k, s, step).value, step.c);
  }

  lemma RightBegin(k: Config, s: State, c: Caller)
    requires Inv(k, s) && Right(s) && BeginStep(s, c).Some?
    ensures Right(BeginStep(s, c).value)
  {
    assert CallRight(s, c) && CallOk(k, s, c);
    RightMove(s, BeginStep(s, c).value, c);
  }

  lemma RightWrite(k: Config, s: State, c: Caller, fails: bool)
    requires Inv(k, s) && Right(s) && WriteStep(k, s, c, fails).Some?
    ensures Right(WriteStep(k, s, c, fails).value)
  {
    assert CallRight(s, c) && CallOk(k, s, c);
    RightMove(s, WriteStep(k, s, c, fails).value, c);
  }

  lemma RightAbandon(s: State, c: Caller)
    requires Right(s) && AbandonStep(s, c).Some?
    ensures Right(AbandonStep(s, c).value)
  {
    assert CallRight(s, c);
    RightMove(s, AbandonStep(s, c).value, c);
  }

  lemma RightCut(k: Config, s: State, c: Caller, sent: Extent)
    requires Right(s) && CutStep(k, s, c, sent).Some?
    ensures Right(CutStep(k, s, c, sent).value)
  {
    assert CallRight(s, c);
    RightMove(s, CutStep(k, s, c, sent).value, c);
  }

  lemma RightStep(k: Config, s: State, step: Step)
    requires Inv(k, s) && (s.drained || Aligned(s)) && Right(s) && Next(k, s, step).Some?
    ensures Right(Next(k, s, step).value)
  {
    match step {
      case Begin(c) => RightBegin(k, s, c);
      case Write(c, fails) => RightWrite(k, s, c, fails);
      case Fail(c) => assert CallOk(k, s, c); RightFail(s, c);
      case Abandon(c) => RightAbandon(s, c);
      case Cut(c, sent) => RightCut(k, s, c, sent);
      case Read => RightRead(k, s);
      case Serve => QuietRight(s, Next(k, s, step).value);
      case Stop => QuietRight(s, Next(k, s, step).value);
      case _ => RightEnding(k, s, step);
    }
  }

  lemma QuietRight(s: State, s': State)
    requires Right(s) && s'.pc == s.pc && s'.slot == s.slot && s'.drained == s.drained
    ensures Right(s')
  {
    forall c
      ensures CallRight(s', c)
    {
      assert CallRight(s, c);
    }
  }

  lemma BothStep(k: Config, s: State, step: Step)
    requires AllFrame(k) && Inv(k, s) && Right(s) && (s.drained || Aligned(s)) && !Skipping(step) && Next(k, s, step).Some?
    ensures var s' := Next(k, s, step).value; Right(s') && (s'.drained || Aligned(s'))
  {
    RightStep(k, s, step);
    if s.drained {
      DrainedStays(k, s, step);
    } else {
      AlignedStep(k, s, step);
    }
  }

  lemma DrainedStays(k: Config, s: State, step: Step)
    requires s.drained && Next(k, s, step).Some?
    ensures Next(k, s, step).value.drained
  {
  }

  /** No call was dropped before its first byte. */
  ghost predicate NoneSkipped(s: State) {
    forall c :: c in s.pc ==> s.pc[c] != Done(Dropped)
  }

  lemma SkippedStays(k: Config, s: State, step: Step, c: Caller)
    requires c in s.pc && s.pc[c] == Done(Dropped) && Next(k, s, step).Some?
    ensures c in Next(k, s, step).value.pc && Next(k, s, step).value.pc[c] == Done(Dropped)
  {
    if !(ByCaller(step) && step.c == c) {
      OthersStep(k, s, step, c);
    }
  }

  lemma NoneSkippedBefore(k: Config, s: State, step: Step)
    requires Next(k, s, step).Some? && NoneSkipped(Next(k, s, step).value)
    ensures NoneSkipped(s) && !Skipping(step)
  {
    if Skipping(step) {
      CutMoves(k, s, step.c, step.sent);
    }
    forall c | c in s.pc
      ensures s.pc[c] != Done(Dropped)
    {
      if s.pc[c] == Done(Dropped) {
        SkippedStays(k, s, step, c);
      }
    }
  }

  /** When every request can be framed and no call was dropped before its first
      byte, every reply is with its own call. */
  lemma {:induction false} RunRight(k: Config, steps: seq<Step>)
    requires AllFrame(k) && Run(k, steps).Some? && NoneSkipped(Run(k, steps).value)
    ensures var s := Run(k, steps).value; Right(s) && (s.drained || Aligned(s))
  {
    if steps != [] {
      var before, last := Run(k, steps[..|steps| - 1]).value, steps[|steps| - 1];
      RunKeeps(k, steps[..|steps| - 1]);
      NoneSkippedBefore(k, before, last);
      RunRight(k, steps[..|steps| - 1]);
      BothStep(k, before, last);
    }
  }

  // ---- a call that never wrote is never answered --------------------------------

  /** Nothing anywhere is a reply to `h`. */
  ghost predicate Unheard(s: State, h: Caller) {
    && h !in s.net.wire && h !in s.net.replies && s.reader != Holding(h)
    && (forall c :: c in s.slot ==> s.slot[c] != GotReply(h))
    && (forall c :: c in s.pc ==> s.pc[c] != Done(Replied(h)))
  }

  lemma UnheardMoves(s: State, s': State, c: Caller, h: Caller)
    requires Unheard(s, h) && Moves(s, s', c) && (s'.net.wire != s.net.wire ==> c != h) && s'.pc[c] != Done(Replied(h))
    ensures Unheard(s', h)
  {
    InAppend(s.net.wire, c, h);
  }

  lemma UnheardFail(s: State, c: Caller, h: Caller)
    requires Unheard(s, h) && FailStep(s, c).Some? && !s.pc[c].result.Replied?
    ensures Unheard(FailStep(s, c).value, h)
  {
    FailMoves(s, c);
  }

  lemma NotReplied(k: Config, s: State, step: Step, h: Caller)
    requires Unheard(s, h) && ByCaller(step) && !step.Fail? && Next(k, s, step).Some?
    ensures step.c in Next(k, s, step).value.pc && Next(k, s, step).value.pc[step.c] != Done(Replied(h))
  {
    CallerMoves(k, s, step);
  }

  lemma UnheardCaller(k: Config, s: State, step: Step, h: Caller)
    requires Inv(k, s) && Unheard(s, h) && ByCaller(step) && Next(k, s, step).Some?
    requires h in s.pc && h in Next(k, s, step).value.pc && Unwritten(Next(k, s, step).value.pc[h])
    ensures Unheard(Next(k, s, step).value, h)
  {
    if step.Fail? {
      assert CallOk(k, s, step.c);
      UnheardFail(s, step.c, h);
    } else {
      CallerMoves(k, s, step);
      NotReplied(k, s, step, h);
      UnheardMoves(s, Next(k, s, step).value, step.c, h);
    }
  }

  lemma UnheardRead(s: State, h: Caller)
    requires Unheard(s, h) && ReadStep(s).Some?
    ensures Unheard(ReadStep(s).value, h)
  {
    if s.reader == Idle {
      InTail(s.net.replies, h);
    }
  }

  lemma UnheardMachine(k: Config, s: State, step: Step, h: Caller)
    requires Unheard(s, h) && !ByCaller(step) && Next(k, s, step).Some?
    ensures Unheard(Next(k, s, step).value, h)
  {
    if step.Serve? {
      InTail(s.net.wire, h);
      InAppend(s.net.replies, s.net.wire[0], h);
    } else if step.Read? {
      UnheardRead(s, h);
    }
  }

  /** A call that has not written has not written before either. */
  lemma UnwrittenBefore(k: Config, s: State, step: Step, h: Caller)
    requires Inv(k, s) && h in s.pc && Next(k, s, step).Some?
    requires h in Next(k, s, step).value.pc && Unwritten(Next(k, s, step).value.pc[h])
    ensures Unwritten(s.pc[h])
  {
    assert CallOk(k, s, h);
    if !(ByCaller(step) && step.c == h) {
      OthersStep(k, s, step, h);
    }
  }

  lemma {:induction false} NeverAnswered(k: Config, steps: seq<Step>, h: Caller)
    requires Run(k, steps).Some? && h in Run(k, steps).value.pc && Unwritten(Run(k, steps).value.pc[h])
    ensures Unheard(Run(k, steps).value, h)
  {
    if steps != [] {
      var before, last := Run(k, steps[..|steps| - 1]).value, steps[|steps| - 1];
      RunKeeps(k, steps[..|steps| - 1]);
      RunKeeps(k, steps);
      assert h in before.pc;
      UnwrittenBefore(k, before, last, h);
      NeverAnswered(k, steps[..|steps| - 1], h);
      if ByCaller(last) {
        UnheardCaller(k, before, last, h);
      } else {
        UnheardMachine(k, before, last, h);
      }
    }
  }

  // ---- the theorem -----------------------------------------------------------

  ghost predicate Correct(s: State) {
    forall c :: c in s.pc && s.pc[c].Done? && s.pc[c].result.Replied? ==> s.pc[c].result.of == c
  }

  /** No interleaving hands a caller another caller's reply. */
  ghost predicate Safe(k: Config) {
    forall steps :: Run(k, steps).Some? ==> Correct(Run(k, steps).value)
  }

  /** A call that may leave its slot in the queue with no request behind it. */
  predicate MaySkip(k: Config, x: Caller) {
    x in k.callers && (x in k.unfit || x in k.fickle)
  }

  /** Such a call has two others beside it whose requests can be framed. */
  ghost predicate Exposed(k: Config) {
    exists x, y, z :: MaySkip(k, x) && Fit(k, y) && Fit(k, z) && x != y && x != z && y != z
  }

  /** A dropped call is never answered, and at most one framed call is beside it. */
  lemma SafeBesideSkipped(k: Config, steps: seq<Step>, h: Caller)
    requires Run(k, steps).Some? && !Exposed(k)
    requires h in Run(k, steps).value.pc && Run(k, steps).value.pc[h] == Done(Dropped)
    ensures Correct(Run(k, steps).value)
  {
    var s := Run(k, steps).value;
    RunKeeps(k, steps);
    NeverAnswered(k, steps, h);
    assert CallOk(k, s, h) && MaySkip(k, h);
    forall c | c in s.pc && s.pc[c].Done? && s.pc[c].result.Replied?
      ensures s.pc[c].result.of == c
    {
      assert CallOk(k, s, c);
    }
  }

  lemma SafeBesideUnfit(k: Config, steps: seq<Step>, u: Caller)
    requires Run(k, steps).Some? && !Exposed(k) && u in k.callers && u in k.unfit
    ensures Correct(Run(k, steps).value)
  {
    var s := Run(k, steps).value;
    RunKeeps(k, steps);
    assert MaySkip(k, u);
    forall c | c in s.pc && s.pc[c].Done? && s.pc[c].result.Replied?
      ensures s.pc[c].result.of == c
    {
      assert CallOk(k, s, c);
    }
  }

  lemma SafeUnlessExposed(k: Config, steps: seq<Step>)
    requires Run(k, steps).Some? && !Exposed(k)
    ensures Correct(Run(k, steps).value)
  {
    var s := Run(k, steps).value;
    RunKeeps(k, steps);
    if h :| h in s.pc && s.pc[h] == Done(Dropped) {
      SafeBesideSkipped(k, steps, h);
    } else if u :| u in k.callers && u in k.unfit {
      SafeBesideUnfit(k, steps, u);
    } else {
      RunRight(k, steps);
      forall c | c in s.pc && s.pc[c].Done? && s.pc[c].result.Replied?
        ensures s.pc[c].result.of == c
      {
        assert CallRight(s, c);
      }
    }
  }

  lemma RunAppend(k: Config, steps: seq<Step>, step: Step)
    requires Run(k, steps).Some?
    ensures Run(k, steps + [step]) == Next(k, Run(k, steps).value, step)
  {
    assert (steps + [step])[..|steps|] == steps;
  }

  function AfterSend(k: Config, s: State, c: Caller): State {
    Goto(s, c, if c in k.unfit then FailSet(Unfit) else Written)
      .(pending := s.pending + [c], net := if c in k.unfit then s.net else s.net.(wire := s.net.wire + [c]))
  }

  /** A call takes the lock and joins the queue without anybody in between. */
  lemma Joins(k: Config, steps: seq<Step>, c: Caller) returns (more: seq<Step>)
    requires Run(k, steps).Some?
    requires var s := Run(k, steps).value; At(s, c, Start) && !s.dead && s.lock == None
    ensures var s := Run(k, steps).value;
            Run(k, more) == Some(Goto(s, c, Queued).(lock := Some(c), pending := s.pending + [c]))
  {
    var s := Run(k, steps).value;
    RunAppend(k, steps, Begin(c));
    more := steps + [Begin(c)];
    RunAppend(k, more, Begin(c));
    GotoTwice(s, c, WantLock, Locked);
    more := more + [Begin(c)];
    RunAppend(k, more, Begin(c));
    GotoTwice(s, c, Locked, Queued);
    more := more + [Begin(c)];
  }

  /** And then through its write. */
  lemma Sends(k: Config, steps: seq<Step>, c: Caller) returns (more: seq<Step>)
    requires Run(k, steps).Some?
    requires var s := Run(k, steps).value; At(s, c, Start) && !s.dead && s.lock == None && !s.net.broken && !s.net.torn
    ensures Run(k, more) == Some(AfterSend(k, Run(k, steps).value, c))
  {
    var s := Run(k, steps).value;
    more := Joins(k, steps, c);
    RunAppend(k, more, Write(c, false));
    GotoTwice(s, c, Queued, if c in k.unfit then FailSet(Unfit) else Written);
    more := more + [Write(c, false)];
  }

  lemma GotoTwice(s: State, c: Caller, a: Pc, b: Pc)
    ensures Goto(Goto(s, c, a), c, b) == Goto(s, c, b)
  {
    assert s.pc[c := a][c := b] == s.pc[c := b];
  }

  function AfterDelivery(s: State): State
    requires s.net.wire != [] && s.pending != []
  {
    s.(net := s.net.(wire := s.net.wire[1..]), pending := s.pending[1..], slot := s.slot[s.pending[0] := GotReply(s.net.wire[0])])
  }

  /** The oldest request is served and its reply handed to the queue's head. */
  lemma Delivers(k: Config, steps: seq<Step>) returns (more: seq<Step>)
    requires Run(k, steps).Some?
    requires var s := Run(k, steps).value; s.reader == Idle && s.net.replies == [] && s.net.wire != [] && s.pending != []
    ensures Run(k, more) == Some(AfterDelivery(Run(k, steps).value))
  {
    var s := Run(k, steps).value;
    more := steps + [Serve];
    RunAppend(k, steps, Serve);
    RunAppend(k, more, Read);
    more := more + [Read];
    assert Run(k, more).value.net.replies == [];
    RunAppend(k, more, Read);
    more := more + [Read];
  }

  /** How `x` leaves its slot behind: refused, or dropped before its first byte. */
  function Skipped(k: Config, x: Caller): State {
    Goto(Init(k), x, if x in k.unfit then FailSet(Unfit) else Done(Dropped)).(pending := [x])
  }

  lemma Skips(k: Config, x: Caller) returns (steps: seq<Step>)
    requires MaySkip(k, x)
    ensures Run(k, steps) == Some(Skipped(k, x))
  {
    assert [] + [x] == [x];
    if x in k.unfit {
      steps := Sends(k, [], x);
    } else {
      steps := Joins(k, [], x);
      RunAppend(k, steps, Cut(x, Nothing));
      GotoTwice(Init(k), x, Queued, Done(Dropped));
      steps := steps + [Cut(x, Nothing)];
    }
  }

  /** `x` has left its slot behind and released the lock; `y` has sent and waits. */
  lemma LeftoverSlot(k: Config, x: Caller, y: Caller) returns (steps: seq<Step>)
    requires MaySkip(k, x) && Fit(k, y) && x != y
    ensures Run(k, steps) == Some(Goto(AfterSend(k, Skipped(k, x), y), y, Waiting))
  {
    steps := Skips(k, x);
    steps := Sends(k, steps, y);
    RunAppend(k, steps, Check(y));
    steps := steps + [Check(y)];
  }

  /** The failing family: `x` leaves a slot with no request behind it. While the
      connection still lives, `y` and `z` are sent and answered; the reply to `y`
      goes to the slot of `x`, and the reply to `z` to `y`. */
  lemma CrossedReplies(k: Config, x: Caller, y: Caller, z: Caller) returns (steps: seq<Step>)
    requires MaySkip(k, x) && Fit(k, y) && Fit(k, z) && x != y && x != z && y != z
    ensures Run(k, steps).Some? && At(Run(k, steps).value, y, Done(Replied(z)))
  {
    steps := LeftoverSlot(k, x, y);
    var s1 := Run(k, steps).value;
    steps := Sends(k, steps, z);
    var s2 := AfterSend(k, s1, z);
    assert s2.pending == [x, y, z] && s2.net.wire == [y, z];
    steps := Delivers(k, steps);
    var s3 := AfterDelivery(s2);
    assert s3.pending == [y, z] && s3.net.wire == [z];
    steps := Delivers(k, steps);
    assert AfterDelivery(s3).slot[y] == GotReply(z);
    RunAppend(k, steps, Receive(y));
    steps := steps + [Receive(y)];
  }

  /** Every request fits, and a future dropped before its first byte is enough. */
  lemma DroppedWriteCrosses() returns (steps: seq<Step>)
    ensures var k := Config({0, 1, 2}, {}, {0});
            Run(k, steps).Some? && At(Run(k, steps).value, 1, Done(Replied(2)))
  {
    steps := CrossedReplies(Config({0, 1, 2}, {}, {0}), 0, 1, 2);
  }

  /** The client's promise, exactly: every reply reaches its own request in every
      interleaving if and only if no call that may leave its slot without a request
      has two framed calls beside it. */
  lemma RepliesReachTheirRequests(k: Config)
    ensures Safe(k) <==> !Exposed(k)
  {
    if !Exposed(k) {
      forall steps | Run(k, steps).Some?
        ensures Correct(Run(k, steps).value)
      {
        SafeUnlessExposed(k, steps);
      }
    } else {
      var x, y, z :| MaySkip(k, x) && Fit(k, y) && Fit(k, z) && x != y && x != z && y != z;
      var steps := CrossedReplies(k, x, y, z);
      assert !Correct(Run(k, steps).value);
    }
  }
}
