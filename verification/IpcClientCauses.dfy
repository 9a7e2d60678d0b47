/** Why calls of the client end as they do: every error has its cause, an error that
    spoils the connection releases everybody else, and without a cause for an error
    every call gets its own reply. */
module IpcClientCauses {
  import opened Prelude
  import opened IpcClient
  import opened IpcClientProof

  // ---- every error has its cause -------------------------------------------------------

  /** An error that fails the whole connection. */
  predicate Spoiling(r: IpcClient.Result) {
    r == Unfit || r == Broken || r == TimedOut
  }

  /** The result a call has, or will have once it has failed everybody. */
  function Fate(pc: Pc): Option<IpcClient.Result> {
    match pc
    case FailSet(r) => Some(r)
    case FailDrain(r) => Some(r)
    case Done(r) => Some(r)
    case _ => None
  }

  ghost predicate Caused(k: Config, s: State, steps: seq<Step>, c: Caller) {
    c in s.pc && c in s.slot ==>
      var pc, fate := s.pc[c], Fate(s.pc[c]);
      && (fate == Some(Unfit) ==> c in k.unfit)
      && (fate == Some(Broken) ==> s.net.broken)
      && (fate == Some(TimedOut) ==> TimeOut(c) in steps)
      && (fate == Some(Abandoned) ==> Abandon(c) in steps || Cut(c, Part) in steps || Cut(c, Whole) in steps)
      && (fate == Some(Dropped) ==> Cut(c, Nothing) in steps)
      && (fate == Some(Closed) ==> s.dead)
      && (pc.FailSet? || pc.FailDrain? ==> Spoiling(pc.result))
      && (pc.Done? && Spoiling(pc.result) ==> s.drained)
      && (s.slot[c] == GotClosed ==> s.drained)
  }

  ghost predicate AllCaused(k: Config, s: State, steps: seq<Step>) {
    forall c :: Caused(k, s, steps, c)
  }

  lemma CausedLonger(k: Config, s: State, steps: seq<Step>, step: Step, c: Caller)
    requires Caused(k, s, steps, c)
    ensures Caused(k, s, steps + [step], c)
  {
  }

  lemma MoveCaused(k: Config, s: State, s': State, steps: seq<Step>, b: Caller)
    requires AllCaused(k, s, steps) && Moves(s, s', b) && Caused(k, s', steps, b) && (s.net.broken ==> s'.net.broken)
    ensures AllCaused(k, s', steps)
  {
    forall c ensures Caused(k, s', steps, c) { assert Caused(k, s, steps, c); }
  }

  lemma BeginCaused(k: Config, s: State, steps: seq<Step>, b: Caller)
    requires AllCaused(k, s, steps) && BeginStep(s, b).Some?
    ensures AllCaused(k, BeginStep(s, b).value, steps)
  {
    assert Caused(k, s, steps, b);
    BeginMoves(s, b);
    MoveCaused(k, s, BeginStep(s, b).value, steps, b);
  }

  lemma WriteCaused(k: Config, s: State, steps: seq<Step>, b: Caller, fails: bool)
    requires AllCaused(k, s, steps) && WriteStep(k, s, b, fails).Some?
    ensures AllCaused(k, WriteStep(k, s, b, fails).value, steps)
  {
    assert Caused(k, s, steps, b);
    WriteMoves(k, s, b, fails);
    MoveCaused(k, s, WriteStep(k, s, b, fails).value, steps, b);
  }

  lemma CutCaused(k: Config, s: State, steps: seq<Step>, b: Caller, sent: Extent)
    requires AllCaused(k, s, steps) && CutStep(k, s, b, sent).Some? && Cut(b, sent) in steps
    ensures AllCaused(k, CutStep(k, s, b, sent).value, steps)
  {
    assert Caused(k, s, steps, b);
    CutMoves(k, s, b, sent);
    MoveCaused(k, s, CutStep(k, s, b, sent).value, steps, b);
  }

  lemma AbandonCaused(k: Config, s: State, steps: seq<Step>, b: Caller)
    requires AllCaused(k, s, steps) && AbandonStep(s, b).Some? && Abandon(b) in steps
    ensures AllCaused(k, AbandonStep(s, b).value, steps)
  {
    assert Caused(k, s, steps, b);
    AbandonMoves(s, b);
    MoveCaused(k, s, AbandonStep(s, b).value, steps, b);
  }

  lemma TimeOutCaused(k: Config, s: State, steps: seq<Step>, b: Caller)
    requires AllCaused(k, s, steps) && At(s, b, Waiting) && TimeOut(b) in steps
    ensures AllCaused(k, Goto(s, b, FailSet(TimedOut)), steps)
  {
    assert Caused(k, s, steps, b);
    assert Moves(s, Goto(s, b, FailSet(TimedOut)), b);
    MoveCaused(k, s, Goto(s, b, FailSet(TimedOut)), steps, b);
  }

  lemma CheckCaused(k: Config, s: State, steps: seq<Step>, b: Caller)
    requires AllCaused(k, s, steps) && CheckStep(s, b).Some?
    ensures AllCaused(k, CheckStep(s, b).value, steps)
  {
    assert Caused(k, s, steps, b);
    assert Moves(s, CheckStep(s, b).value, b);
    MoveCaused(k, s, CheckStep(s, b).value, steps, b);
  }

  lemma ReceiveCaused(k: Config, s: State, steps: seq<Step>, b: Caller)
    requires AllCaused(k, s, steps) && Inv(k, s) && ReceiveStep(s, b).Some?
    ensures AllCaused(k, ReceiveStep(s, b).value, steps)
  {
    assert Caused(k, s, steps, b);
    assert Moves(s, ReceiveStep(s, b).value, b);
    MoveCaused(k, s, ReceiveStep(s, b).value, steps, b);
  }

  lemma FailCaused(k: Config, s: State, steps: seq<Step>, b: Caller)
    requires AllCaused(k, s, steps) && FailStep(s, b).Some?
    ensures AllCaused(k, FailStep(s, b).value, steps)
  {
    assert Caused(k, s, steps, b);
    forall c ensures Caused(k, FailStep(s, b).value, steps, c) { assert Caused(k, s, steps, c); }
  }

  lemma ReadCaused(k: Config, s: State, steps: seq<Step>)
    requires AllCaused(k, s, steps) && Shared(k, s) && ReadStep(s).Some?
    ensures AllCaused(k, ReadStep(s).value, steps)
  {
    forall c ensures Caused(k, ReadStep(s).value, steps, c) { assert Caused(k, s, steps, c); }
  }

  lemma QuietCaused(k: Config, s: State, s': State, steps: seq<Step>)
    requires AllCaused(k, s, steps) && s'.pc == s.pc && s'.slot == s.slot && s'.drained == s.drained
    requires s'.dead == s.dead && s'.net.broken == s.net.broken
    ensures AllCaused(k, s', steps)
  {
    forall c ensures Caused(k, s', steps, c) { assert Caused(k, s, steps, c); }
  }

  lemma StepCaused(k: Config, s: State, steps: seq<Step>, step: Step)
    requires AllCaused(k, s, steps) && Inv(k, s) && Next(k, s, step).Some? && step in steps
    ensures AllCaused(k, Next(k, s, step).value, steps)
  {
    match step {
      case Begin(c) => BeginCaused(k, s, steps, c);
      case Write(c, fails) => WriteCaused(k, s, steps, c, fails);
      case Cut(c, sent) => CutCaused(k, s, steps, c, sent);
      case Check(c) => CheckCaused(k, s, steps, c);
      case Receive(c) => ReceiveCaused(k, s, steps, c);
      case TimeOut(c) => TimeOutCaused(k, s, steps, c);
      case Abandon(c) => AbandonCaused(k, s, steps, c);
      case Fail(c) => FailCaused(k, s, steps, c);
      case Read => ReadCaused(k, s, steps);
      case Serve => QuietCaused(k, s, Next(k, s, step).value, steps);
      case Stop => QuietCaused(k, s, Next(k, s, step).value, steps);
    }
  }

  /** In every run, no call ends in an error without its cause: a request that does not
      fit, a broken socket, a timeout, a dropped future, or a dead connection. */
  lemma {:induction false} RunCaused(k: Config, steps: seq<Step>)
    requires Run(k, steps).Some?
    ensures AllCaused(k, Run(k, steps).value, steps)
  {
    if steps != [] {
      var front, last := steps[..|steps| - 1], steps[|steps| - 1];
      var s := Run(k, front).value;
      RunCaused(k, front);
      RunKeeps(k, front);
      assert steps == front + [last];
      forall c ensures Caused(k, s, steps, c) { CausedLonger(k, s, front, last, c); }
      StepCaused(k, s, steps, last);
    }
  }

  /** A call that times out, or whose request cannot be written, has failed everybody
      before it returns: the connection is dead, and every call still waiting has
      something to receive. */
  lemma FailureReleasesAll(k: Config, steps: seq<Step>, c: Caller, other: Caller)
    requires Run(k, steps).Some? && c in Run(k, steps).value.pc
    requires Run(k, steps).value.pc[c].Done? && Spoiling(Run(k, steps).value.pc[c].result)
    ensures var s := Run(k, steps).value;
      s.drained && s.dead && (At(s, other, Waiting) ==> ReceiveStep(s, other).Some?)
  {
    var s := Run(k, steps).value;
    RunCaused(k, steps);
    RunKeeps(k, steps);
    assert Caused(k, s, steps, c) && CallOk(k, s, other);
  }

  lemma RefusedStep(k: Config, s: State, step: Step, c: Caller)
    requires s.dead && c in s.pc && (s.pc[c] == Start || s.pc[c] == Done(Closed)) && Next(k, s, step).Some?
    ensures var s' := Next(k, s, step).value; s'.dead && c in s'.pc && (s'.pc[c] == Start || s'.pc[c] == Done(Closed))
  {
    if !(ByCaller(step) && step.c == c) {
      OthersStep(k, s, step, c);
    }
  }

  /** A call that begins on a dead connection is refused at once: it never takes the
      lock, never joins the queue and never writes. */
  lemma {:induction false} DeadRefuses(k: Config, steps: seq<Step>, n: nat, c: Caller)
    requires n <= |steps| && Run(k, steps).Some? && Run(k, steps[..n]).Some?
    requires Run(k, steps[..n]).value.dead && At(Run(k, steps[..n]).value, c, Start)
    ensures var s := Run(k, steps).value; s.dead && c in s.pc && (s.pc[c] == Start || s.pc[c] == Done(Closed))
    decreases |steps|
  {
    if n == |steps| {
      assert steps[..n] == steps;
    } else {
      var front := steps[..|steps| - 1];
      assert front[..n] == steps[..n];
      DeadRefuses(k, front, n, c);
      RefusedStep(k, Run(k, front).value, steps[|steps| - 1], c);
    }
  }

  /** A reply nobody waits for, and the end of the stream, end the connection: the
      reader's next steps mark it dead and fail everybody. */
  lemma ReaderEnds(k: Config, s: State)
    requires s.reader == ExitSet || (s.reader.Holding? && s.pending == [])
    ensures var s1 := if s.reader == ExitSet then s else ReadStep(s).value;
      && s1.reader == ExitSet && ReadStep(s1).Some? && ReadStep(s1).value.dead && ReadStep(s1).value.reader == ExitDrain
      && ReadStep(ReadStep(s1).value) == Some(Drain(s1.(reader := Gone, dead := true)))
    ensures forall t: State :: t.reader == Idle ==> Next(k, t, Stop) == Some(t.(reader := ExitSet))
  {
  }

  // ---- a reply that has arrived is kept ---------------------------------------------------------

  predicate NotYetQueued(pc: Pc) {
    pc == Start || pc == WantLock || pc == Locked
  }

  /** A call stands in the queue at most once, after it joined and until its channel is
      used. */
  ghost predicate QueueOk(s: State) {
    && (forall i, j :: 0 <= i < j < |s.pending| ==> s.pending[i] != s.pending[j])
    && (forall c :: c in s.pending && c in s.slot ==> s.slot[c] == Empty)
    && (forall c :: c in s.pc && NotYetQueued(s.pc[c]) ==> c !in s.pending && (c in s.slot ==> s.slot[c] == Empty))
  }

  lemma QueueMoves(s: State, s': State, c: Caller)
    requires QueueOk(s) && Moves(s, s', c) && s'.pending == s.pending && (NotYetQueued(s'.pc[c]) ==> NotYetQueued(s.pc[c]))
    ensures QueueOk(s')
  {
  }

  lemma QueueJoin(s: State, c: Caller)
    requires QueueOk(s) && At(s, c, Locked)
    ensures QueueOk(BeginStep(s, c).value)
  {
    var s' := BeginStep(s, c).value;
    forall d
      ensures d in s'.pending <==> d in s.pending || d == c
    {
      InAppend(s.pending, c, d);
    }
  }

  lemma QueueBegin(s: State, c: Caller)
    requires QueueOk(s) && BeginStep(s, c).Some?
    ensures QueueOk(BeginStep(s, c).value)
  {
    if At(s, c, Locked) {
      QueueJoin(s, c);
    } else {
      BeginMoves(s, c);
      QueueMoves(s, BeginStep(s, c).value, c);
    }
  }

  lemma QueueFail(s: State, c: Caller)
    requires QueueOk(s) && FailStep(s, c).Some?
    ensures QueueOk(FailStep(s, c).value)
  {
  }

  lemma QueueRead(k: Config, s: State)
    requires QueueOk(s) && Shared(k, s) && ReadStep(s).Some?
    ensures QueueOk(ReadStep(s).value)
  {
    if s.reader.Holding? && s.pending != [] {
      var s' := ReadStep(s).value;
      forall d
        ensures d in s.pending <==> d == s.pending[0] || d in s'.pending
      {
        InTail(s.pending, d);
      }
      assert s.pending[0] !in s'.pending;
    }
  }

  lemma QueueCaller(k: Config, s: State, step: Step)
    requires QueueOk(s) && Next(k, s, step).Some? && ByCaller(step) && !step.Fail? && !step.Begin?
    ensures QueueOk(Next(k, s, step).value)
  {
    CallerMoves(k, s, step);
    LateStep(k, s, step);
    QueueMoves(s, Next(k, s, step).value, step.c);
  }

  lemma LateStep(k: Config, s: State, step: Step)
    requires Next(k, s, step).Some? && ByCaller(step) && !step.Fail? && !step.Begin?
    ensures var s' := Next(k, s, step).value; s'.pending == s.pending && step.c in s'.pc && !NotYetQueued(s'.pc[step.c])
  {
    CallerMoves(k, s, step);
  }

  lemma {:induction false} RunQueue(k: Config, steps: seq<Step>)
    requires Run(k, steps).Some?
    ensures QueueOk(Run(k, steps).value)
  {
    if steps != [] {
      var front, last := steps[..|steps| - 1], steps[|steps| - 1];
      var s := Run(k, front).value;
      RunQueue(k, front);
      RunKeeps(k, front);
      if last.Begin? {
        QueueBegin(s, last.c);
      } else if last.Fail? {
        QueueFail(s, last.c);
      } else if ByCaller(last) {
        QueueCaller(k, s, last);
      } else if last.Read? {
        QueueRead(k, s);
      }
    }
  }

  lemma SlotStays(k: Config, s: State, step: Step, c: Caller)
    requires QueueOk(s) && c in s.slot && s.slot[c].GotReply? && Next(k, s, step).Some?
    ensures c in Next(k, s, step).value.slot && Next(k, s, step).value.slot[c] == s.slot[c]
  {
    if step.Fail? {
      FailMoves(s, step.c);
    } else if ByCaller(step) {
      CallerMoves(k, s, step);
    }
  }

  /** A reply that has reached a call's channel stays there, whoever fails meanwhile, and
      is what the call returns when it takes it. */
  lemma {:induction false} ReplyIsKept(k: Config, steps: seq<Step>, n: nat, c: Caller, of: Caller)
    requires n <= |steps| && Run(k, steps).Some? && Run(k, steps[..n]).Some?
    requires c in Run(k, steps[..n]).value.slot && Run(k, steps[..n]).value.slot[c] == GotReply(of)
    ensures var s := Run(k, steps).value;
      && c in s.slot && s.slot[c] == GotReply(of)
      && (At(s, c, Waiting) ==> Next(k, s, Receive(c)).Some? && At(Next(k, s, Receive(c)).value, c, Done(Replied(of))))
    decreases |steps|
  {
    if n == |steps| {
      assert steps[..n] == steps;
    } else {
      var front := steps[..|steps| - 1];
      assert front[..n] == steps[..n];
      ReplyIsKept(k, front, n, c, of);
      RunQueue(k, front);
      SlotStays(k, Run(k, front).value, steps[|steps| - 1], c);
    }
  }

  // ---- without a cause, every call is answered -----------------------------------------------

  /** The steps of callers, server and reader when nobody fails, times out or goes away. */
  predicate Calm(step: Step) {
    match step
    case Begin(_) => true
    case Write(_, fails) => !fails
    case Check(_) => true
    case Receive(_) => true
    case Serve => true
    case Read => true
    case _ => false
  }

  predicate Fair(pc: Pc) {
    !pc.FailSet? && !pc.FailDrain? && (pc.Done? ==> pc.result.Replied?)
  }

  /** Nothing has gone wrong, and nothing is about to. */
  ghost predicate Healthy(k: Config, s: State) {
    && !s.dead && !s.drained && !s.net.broken && !s.net.torn && (s.reader == Idle || s.reader.Holding?)
    && (s.lock.Some? ==> s.lock.value in s.pc)
    && forall c :: c in s.pc ==> Fair(s.pc[c])
  }

  lemma CalmReceive(k: Config, s: State, steps: seq<Step>, c: Caller)
    requires Healthy(k, s) && Caused(k, s, steps, c) && ReceiveStep(s, c).Some?
    ensures Healthy(k, ReceiveStep(s, c).value)
  {
  }

  lemma CalmRead(k: Config, s: State)
    requires Healthy(k, s) && Aligned(s) && ReadStep(s).Some?
    ensures Healthy(k, ReadStep(s).value)
  {
    if s.reader.Holding? {
      HeadIsDue(s);
    }
  }

  lemma CalmWrite(k: Config, s: State, c: Caller)
    requires Healthy(k, s) && c !in k.unfit && WriteStep(k, s, c, false).Some?
    ensures Healthy(k, WriteStep(k, s, c, false).value)
  {
  }

  lemma CalmBegin(k: Config, s: State, c: Caller)
    requires Healthy(k, s) && BeginStep(s, c).Some?
    ensures Healthy(k, BeginStep(s, c).value)
  {
  }

  lemma CalmStep(k: Config, s: State, steps: seq<Step>, step: Step)
    requires AllFrame(k) && Inv(k, s) && AllCaused(k, s, steps) && Aligned(s)
    requires Healthy(k, s) && Calm(step) && Next(k, s, step).Some?
    ensures Healthy(k, Next(k, s, step).value)
  {
    if step.Receive? {
      assert Caused(k, s, steps, step.c);
      CalmReceive(k, s, steps, step.c);
    } else if step.Read? {
      CalmRead(k, s);
    } else if step.Write? {
      CalmWrite(k, s, step.c);
    } else if step.Begin? {
      CalmBegin(k, s, step.c);
    }
  }

  ghost predicate AllCalm(steps: seq<Step>) {
    forall i :: 0 <= i < |steps| ==> Calm(steps[i])
  }

  lemma {:induction false} RunHealthy(k: Config, steps: seq<Step>)
    requires AllFrame(k) && AllCalm(steps) && Run(k, steps).Some?
    ensures Healthy(k, Run(k, steps).value) && Aligned(Run(k, steps).value)
  {
    if steps != [] {
      var front, last := steps[..|steps| - 1], steps[|steps| - 1];
      assert forall i :: 0 <= i < |front| ==> front[i] == steps[i];
      RunHealthy(k, front);
      RunKeeps(k, front);
      RunCaused(k, front);
      CalmStep(k, Run(k, front).value, front, last);
      AlignedStep(k, Run(k, front).value, last);
    }
  }

  /** Callers, server and reader have nothing left to do. */
  ghost predicate AtRest(k: Config, s: State) {
    forall step :: Calm(step) ==> Next(k, s, step) == None
  }

  lemma RestingCall(k: Config, s: State, c: Caller)
    requires Healthy(k, s) && AtRest(k, s) && c in s.pc
    ensures s.pc[c] == WantLock || s.pc[c] == Waiting || s.pc[c].Done?
  {
    assert Next(k, s, Begin(c)) == None && Next(k, s, Write(c, false)) == None && Next(k, s, Check(c)) == None;
  }

  lemma NobodyQueues(k: Config, s: State, c: Caller)
    requires Inv(k, s) && Healthy(k, s) && AtRest(k, s) && c in s.pc
    ensures s.pc[c] != WantLock
  {
    RestingCall(k, s, c);
    if s.lock.Some? {
      RestingCall(k, s, s.lock.value);
      assert CallOk(k, s, s.lock.value);
    }
    assert Next(k, s, Begin(c)) == None;
  }

  lemma NobodyWaits(k: Config, s: State, c: Caller)
    requires Inv(k, s) && Healthy(k, s) && Aligned(s) && AtRest(k, s) && c in s.pc
    ensures s.pc[c] != Waiting
  {
    assert CallOk(k, s, c);
    assert Next(k, s, Receive(c)) == None && Next(k, s, Serve) == None && Next(k, s, Read) == None;
    if s.pc[c] == Waiting && Due(s) == [] {
      RestingCall(k, s, s.pending[0]);
    }
  }

  /** When every request fits and nobody fails, times out, is dropped or hangs up, no
      interleaving leaves a caller without its answer: where nothing is left to do,
      every call has returned, with its own reply. */
  lemma EverybodyAnswered(k: Config, steps: seq<Step>, c: Caller)
    requires AllFrame(k) && AllCalm(steps) && Run(k, steps).Some? && AtRest(k, Run(k, steps).value) && c in k.callers
    ensures At(Run(k, steps).value, c, Done(Replied(c)))
  {
    var s := Run(k, steps).value;
    RunHealthy(k, steps);
    RunKeeps(k, steps);
    RestingCall(k, s, c);
    NobodyQueues(k, s, c);
    NobodyWaits(k, s, c);
    forall d | d in s.pc
      ensures s.pc[d] != Done(Dropped)
    {
      assert Fair(s.pc[d]);
    }
    RunRight(k, steps);
    assert CallRight(s, c);
  }
}
