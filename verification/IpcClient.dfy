/** The IPC client under concurrency (crates/ipc/src/client.rs): any number of
    callers share one connection, and replies carry no id; a reply belongs to the
    oldest unanswered request. Every await point and every access to the shared
    flag, queue and lock is its own atomic step. */
module IpcClient {
  import opened Prelude

  /** One call of `request`; it stands for the call's request and for its reply. */
  type Caller = nat

  /** `Abandoned` and `Dropped` are calls whose future is dropped; `Dropped` had joined
      the queue and had not put a byte of its request on the wire. */
  datatype Result = Replied(of: Caller) | Closed | Unfit | Broken | TimedOut | Abandoned | Dropped

  /** Where a call is. `FailSet` and `FailDrain` are the two halves of
      `fail_all_pending`, with the result the call returns afterwards. */
  datatype Pc = Start | WantLock | Locked | Queued | Written | Waiting | FailSet(result: Result) | FailDrain(result: Result) | Done(result: Result)

  /** The one-shot channel of a call. */
  datatype Slot = Empty | GotReply(of: Caller) | GotClosed

  datatype Reader = Idle | Holding(reply: Caller) | ExitSet | ExitDrain | Gone

  /** `unfit` are the calls whose request cannot be framed (it is over the frame
      cap, or does not serialize); `fickle` those whose future may be dropped while
      their write is waiting for the socket. */
  datatype Config = Config(callers: set<Caller>, unfit: set<Caller>, fickle: set<Caller>)

  /** How far a write had come when its future was dropped. */
  datatype Extent = Nothing | Part | Whole

  /** `wire` and `replies` are the requests the server has yet to handle and the
      replies the reader has yet to take, both in order. `broken` is a socket on
      which a write failed: later writes fail too. `torn` is a stream that holds part
      of a frame: later requests are written and never understood. */
  datatype Net = Net(wire: seq<Caller>, replies: seq<Caller>, broken: bool, torn: bool)

  /** `drained` is history: some drain of the queue has happened. */
  datatype State = State(
    pc: map<Caller, Pc>, slot: map<Caller, Slot>,
    dead: bool, lock: Option<Caller>, pending: seq<Caller>,
    net: Net, reader: Reader, drained: bool)

  datatype Step =
    | Begin(c: Caller)                 // the flag check, taking the lock, joining the queue
    | Write(c: Caller, fails: bool)    // the write; the lock is released
    | Check(c: Caller)                 // the second flag check
    | Receive(c: Caller) | TimeOut(c: Caller)
    | Abandon(c: Caller)               // the future is dropped at the lock or the channel
    | Cut(c: Caller, sent: Extent)     // the future is dropped in the middle of its write
    | Fail(c: Caller)                  // one half of `fail_all_pending`
    | Serve                            // the server handles one request
    | Read                             // the reader's next step
    | Stop                             // end of stream, or an undecodable frame

  function Init(k: Config): State {
    State(map c | c in k.callers :: Start, map c | c in k.callers :: Empty,
          false, None, [], Net([], [], false, false), Idle, false)
  }

  // ---- the code, one atomic step at a time --------------------------------

  predicate At(s: State, c: Caller, pc: Pc) {
    c in s.pc && s.pc[c] == pc
  }

  function Goto(s: State, c: Caller, pc: Pc): State {
    s.(pc := s.pc[c := pc])
  }

  /** Fail every waiter in the queue. */
  function Drain(s: State): State {
    s.(slot := map c | c in s.slot :: if c in s.pending then GotClosed else s.slot[c],
       pending := [], drained := true)
  }

  function BeginStep(s: State, c: Caller): Option<State> {
    if At(s, c, Start) then
      Some(Goto(s, c, if s.dead then Done(Closed) else WantLock))
    else if At(s, c, WantLock) && s.lock == None then
      Some(Goto(s, c, Locked).(lock := Some(c)))
    else if At(s, c, Locked) then
      Some(Goto(s, c, Queued).(pending := s.pending + [c]))
    else
      None
  }

  /** `write_frame`: a request that does not fit leaves the wire untouched; a
      socket error breaks the wire for good. */
  function WriteStep(k: Config, s: State, c: Caller, fails: bool): Option<State> {
    if !At(s, c, Queued) then None
    else if c in k.unfit then Some(Goto(s, c, FailSet(Unfit)).(lock := None))
    else if fails || s.net.broken then Some(Goto(s, c, FailSet(Broken)).(lock := None, net := s.net.(broken := true)))
    else Some(Goto(s, c, Written).(lock := None, net := OnWire(s.net, c)))
  }

  /** What the server will make of the wire once the request of `c` is written. */
  function OnWire(net: Net, c: Caller): Net {
    if net.torn || net.broken then net else net.(wire := net.wire + [c])
  }

  /** A future dropped at one of its other awaits: for the lock, holding it but not
      yet running again, or for the reply. */
  function AbandonStep(s: State, c: Caller): Option<State> {
    if At(s, c, WantLock) || At(s, c, Waiting) then Some(Goto(s, c, Done(Abandoned)))
    else if At(s, c, Locked) then Some(Goto(s, c, Done(Abandoned)).(lock := None))
    else None
  }

  /** A future dropped inside `write_frame`: the lock is released and the slot stays
      in the queue. A request that does not fit is refused without waiting. */
  function CutStep(k: Config, s: State, c: Caller, sent: Extent): Option<State> {
    if !At(s, c, Queued) || c !in k.fickle || c in k.unfit then None
    else match sent
      case Nothing => Some(Goto(s, c, Done(Dropped)).(lock := None))
      case Part => Some(Goto(s, c, Done(Abandoned)).(lock := None, net := s.net.(torn := true)))
      case Whole => Some(Goto(s, c, Done(Abandoned)).(lock := None, net := OnWire(s.net, c)))
  }

  function CheckStep(s: State, c: Caller): Option<State> {
    if !At(s, c, Written) then None
    else Some(Goto(s, c, if s.dead then Done(Closed) else Waiting))
  }

  function ReceiveStep(s: State, c: Caller): Option<State> {
    if !At(s, c, Waiting) || c !in s.slot || s.slot[c] == Empty then None
    else Some(Goto(s, c, Done(if s.slot[c].GotReply? then Replied(s.slot[c].of) else Closed)))
  }

  function FailStep(s: State, c: Caller): Option<State> {
    if c in s.pc && s.pc[c].FailSet? then
      Some(Goto(s, c, FailDrain(s.pc[c].result)).(dead := true))
    else if c in s.pc && s.pc[c].FailDrain? then
      Some(Drain(Goto(s, c, Done(s.pc[c].result))))
    else
      None
  }

  /** The demultiplexer: take a reply, hand it to the oldest waiter; with no
      waiter left, stop; then mark the connection dead and drain the queue. */
  function ReadStep(s: State): Option<State> {
    match s.reader
    case Idle =>
      if s.net.replies == [] then None
      else Some(s.(reader := Holding(s.net.replies[0]), net := s.net.(replies := s.net.replies[1..])))
    case Holding(reply) =>
      if s.pending == [] then Some(s.(reader := ExitSet))
      else Some(s.(reader := Idle, pending := s.pending[1..], slot := s.slot[s.pending[0] := GotReply(reply)]))
    case ExitSet => Some(s.(reader := ExitDrain, dead := true))
    case ExitDrain => Some(Drain(s.(reader := Gone)))
    case Gone => None
  }

  function Served(net: Net): Net
    requires net.wire != []
  {
    net.(wire := net.wire[1..], replies := net.replies + [net.wire[0]])
  }

  function Next(k: Config, s: State, step: Step): Option<State> {
    match step
    case Begin(c) => BeginStep(s, c)
    case Write(c, fails) => WriteStep(k, s, c, fails)
    case Check(c) => CheckStep(s, c)
    case Receive(c) => ReceiveStep(s, c)
    case TimeOut(c) => if At(s, c, Waiting) then Some(Goto(s, c, FailSet(TimedOut))) else None
    case Abandon(c) => AbandonStep(s, c)
    case Cut(c, sent) => CutStep(k, s, c, sent)
    case Fail(c) => FailStep(s, c)
    case Serve =>
      if s.net.wire == [] then None else Some(s.(net := Served(s.net)))
    case Read => ReadStep(s)
    case Stop => if s.reader == Idle then Some(s.(reader := ExitSet)) else None
  }

  function Run(k: Config, steps: seq<Step>): Option<State> {
    if steps == [] then Some(Init(k))
    else match Run(k, steps[..|steps| - 1])
      case None => None
      case Some(s) => Next(k, s, steps[|steps| - 1])
  }
}
