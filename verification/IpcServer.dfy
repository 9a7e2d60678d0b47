/** The IPC server's sessions and its event relay (crates/ipc/src/server.rs): for
    each client a read loop and a writer around one outbound queue, and one
    dispatcher that feeds every registered queue. Each access to a queue or to the
    registry is one atomic step. */
module IpcServer {
  import opened Prelude

  type Client = nat
  type Event = nat
  type Request = nat
  type Response = nat

  datatype Frame = Hello | Note(event: Event) | Reply(response: Response)

  datatype Phase = Fresh | Registered | Reading | Handling | Replying(response: Response) | Closing | Over

  datatype Served = Served(request: Request, response: Response)

  /** One client. `requests` is everything the client will send. `sent` is every
      frame that entered the queue; while the writer lives, it has written a part
      and the rest is still queued. `since` is the relay's length at registration. */
  datatype Session = Session(
    phase: Phase, requests: seq<Request>, served: seq<Served>,
    sent: seq<Frame>, written: seq<Frame>, queue: seq<Frame>, writing: bool,
    registered: bool, since: nat)

  /** `published` is the bus, `cursor` the dispatcher's place in it, and `relayed`
      the events it took, at the bus positions `kept`. */
  datatype State = State(
    published: seq<Event>, cursor: nat, relayed: seq<Event>, kept: seq<nat>,
    sessions: map<Client, Session>)

  datatype Step =
    | Publish(event: Event)
    | Lag(skipped: nat)
    | Relay
    | Accept(c: Client, requests: seq<Request>)
    | Register(c: Client) | Greet(c: Client)
    | ReadRequest(c: Client) | Handled(c: Client, response: Response) | QueueReply(c: Client)
    | ReadEnds(c: Client) | Unregister(c: Client)
    | WriterWrites(c: Client) | WriterFails(c: Client)

  const INIT := State([], 0, [], [], map[])

  // ---- the code, one atomic step at a time ---------------------------------

  /** A send on the outbound queue, which fails once the writer is gone. */
  function Enqueue(x: Session, f: Frame): Session {
    if x.writing then x.(sent := x.sent + [f], queue := x.queue + [f]) else x
  }

  /** What one relayed event does to one session: delivered while registered, and
      pruned from the registry when its writer is gone. */
  function Deliver(x: Session, e: Event): Session {
    if !x.registered then x
    else if x.writing then Enqueue(x, Note(e))
    else x.(registered := false)
  }

  function NewSession(requests: seq<Request>): Session {
    Session(Fresh, requests, [], [], [], [], true, false, 0)
  }

  /** A session's own step; `relayedLen` is the relay's length at that moment. */
  function SessionStep(x: Session, step: Step, relayedLen: nat): Option<Session> {
    match step
    case Register(_) =>
      if x.phase != Fresh then None else Some(x.(phase := Registered, registered := true, since := relayedLen))
    case Greet(_) =>
      if x.phase != Registered then None
      else if x.writing then Some(Enqueue(x, Hello).(phase := Reading))
      else Some(x.(phase := Over))
    case ReadRequest(_) =>
      if x.phase != Reading || |x.served| >= |x.requests| then None else Some(x.(phase := Handling))
    case Handled(_, response) =>
      if x.phase != Handling || |x.served| >= |x.requests| then None
      else Some(x.(phase := Replying(response), served := x.served + [Served(x.requests[|x.served|], response)]))
    case QueueReply(_) =>
      if !x.phase.Replying? then None
      else if x.writing then Some(Enqueue(x, Reply(x.phase.response)).(phase := Reading))
      else Some(x.(phase := Closing))
    case ReadEnds(_) =>
      if x.phase != Reading then None else Some(x.(phase := Closing))
    case Unregister(_) =>
      if x.phase != Closing then None else Some(x.(phase := Over, registered := false))
    case WriterWrites(_) =>
      if !x.writing || x.queue == [] then None
      else Some(x.(written := x.written + [x.queue[0]], queue := x.queue[1..]))
    case WriterFails(_) =>
      if !x.writing || x.queue == [] then None else Some(x.(writing := false, queue := []))
    case _ => None
  }

  function Next(s: State, step: Step): Option<State> {
    match step
    case Publish(e) => Some(s.(published := s.published + [e]))
    case Lag(skipped) =>
      if s.cursor + skipped > |s.published| then None else Some(s.(cursor := s.cursor + skipped))
    case Relay =>
      if s.cursor >= |s.published| then None
      else
        var e := s.published[s.cursor];
        Some(s.(cursor := s.cursor + 1, relayed := s.relayed + [e], kept := s.kept + [s.cursor],
                sessions := map c | c in s.sessions :: Deliver(s.sessions[c], e)))
    case Accept(c, requests) =>
      if c in s.sessions then None else Some(s.(sessions := s.sessions[c := NewSession(requests)]))
    case _ =>
      if step.c !in s.sessions then None
      else match SessionStep(s.sessions[step.c], step, |s.relayed|)
        case None => None
        case Some(x) => Some(s.(sessions := s.sessions[step.c := x]))
  }

  function Run(steps: seq<Step>): Option<State> {
    if steps == [] then Some(INIT)
    else match Run(steps[..|steps| - 1])
      case None => None
      case Some(s) => Next(s, steps[|steps| - 1])
  }

  // ---- what a client sees of each kind ---------------------------------------

  function Replies(fs: seq<Frame>): seq<Response> {
    if fs == [] then []
    else
      var last := fs[|fs| - 1];
      Replies(fs[..|fs| - 1]) + if last.Reply? then [last.response] else []
  }

  function Notes(fs: seq<Frame>): seq<Event> {
    if fs == [] then []
    else
      var last := fs[|fs| - 1];
      Notes(fs[..|fs| - 1]) + if last.Note? then [last.event] else []
  }

  function Hellos(fs: seq<Frame>): nat {
    if fs == [] then 0
    else Hellos(fs[..|fs| - 1]) + if fs[|fs| - 1].Hello? then 1 else 0
  }

  function Responses(served: seq<Served>): seq<Response> {
    if served == [] then [] else Responses(served[..|served| - 1]) + [served[|served| - 1].response]
  }

  lemma AppendFrame(fs: seq<Frame>, f: Frame)
    ensures Replies(fs + [f]) == Replies(fs) + if f.Reply? then [f.response] else []
    ensures Notes(fs + [f]) == Notes(fs) + if f.Note? then [f.event] else []
    ensures Hellos(fs + [f]) == Hellos(fs) + if f.Hello? then 1 else 0
  {
    assert (fs + [f])[..|fs|] == fs;
  }

  lemma AppendServed(served: seq<Served>, x: Served)
    ensures Responses(served + [x]) == Responses(served) + [x.response]
  {
    assert (served + [x])[..|served|] == served;
  }

  /** What was sent first is seen first: the kinds of a prefix are prefixes. */
  lemma {:induction false} PrefixKinds(fs: seq<Frame>, n: nat)
    requires n <= |fs|
    ensures Replies(fs[..n]) <= Replies(fs) && Notes(fs[..n]) <= Notes(fs) && Hellos(fs[..n]) <= Hellos(fs)
    decreases |fs| - n
  {
    if n == |fs| {
      assert fs[..n] == fs;
    } else {
      AppendFrame(fs[..n], fs[n]);
      assert fs[..n] + [fs[n]] == fs[..n + 1];
      PrefixKinds(fs, n + 1);
    }
  }

  // ---- the invariant ----------------------------------------------------------

  /** The answered requests are the first ones sent, in order. */
  ghost predicate InOrder(x: Session) {
    && |x.served| <= |x.requests|
    && forall i :: 0 <= i < |x.served| ==> x.served[i].request == x.requests[i]
  }

  /** The replies sent are the handler's results in order, all but the one being
      queued (or the last one, when the writer was already gone). */
  predicate RepliesOk(x: Session) {
    var rs := Responses(x.served);
    if x.phase.Replying? then rs == Replies(x.sent) + [x.phase.response]
    else rs == Replies(x.sent) || (!x.writing && (x.phase == Closing || x.phase == Over) && Replies(x.sent) <= rs)
  }

  /** The events sent are one unbroken window of the relay, open while registered. */
  predicate NotesOk(x: Session, relayed: seq<Event>) {
    if x.phase == Fresh then Notes(x.sent) == [] && !x.registered && x.since == 0
    else
      && x.since <= |relayed| && Notes(x.sent) <= relayed[x.since..]
      && (x.registered && x.writing ==> Notes(x.sent) == relayed[x.since..])
  }

  /** One Hello, sent before the first request is even read. */
  predicate HelloOk(x: Session) {
    if x.phase == Fresh || x.phase == Registered then Hellos(x.sent) == 0 && x.served == []
    else Hellos(x.sent) <= 1 && (x.served != [] ==> Hellos(x.sent) == 1) && (x.phase == Reading || x.phase == Handling ==> Hellos(x.sent) == 1)
  }

  /** No reply stands before the Hello. */
  ghost predicate HelloFirst(fs: seq<Frame>) {
    forall i :: 0 <= i < |fs| && fs[i].Reply? ==> Hellos(fs[..i]) == 1
  }

  /** The wire has a prefix of what was sent, and the queue the rest. */
  predicate WireOk(x: Session) {
    if x.writing then x.written + x.queue == x.sent else x.written <= x.sent && x.queue == []
  }

  ghost predicate SessionOk(x: Session, relayed: seq<Event>) {
    InOrder(x) && RepliesOk(x) && NotesOk(x, relayed) && HelloOk(x) && HelloFirst(x.sent) && WireOk(x)
  }

  /** The relay kept a subsequence of the bus: it may lag, never reorder. */
  ghost predicate RelayOk(s: State) {
    && s.cursor <= |s.published| && |s.kept| == |s.relayed|
    && (forall i :: 0 <= i < |s.kept| ==> s.kept[i] < s.cursor && s.relayed[i] == s.published[s.kept[i]])
    && (forall i, j :: 0 <= i < j < |s.kept| ==> s.kept[i] < s.kept[j])
  }

  ghost predicate Inv(s: State) {
    RelayOk(s) && forall c :: c in s.sessions ==> SessionOk(s.sessions[c], s.relayed)
  }

  // ---- every step keeps it -----------------------------------------------------

  lemma SendReply(x: Session, relayed: seq<Event>)
    requires SessionOk(x, relayed) && x.phase.Replying? && x.writing
    ensures SessionOk(Enqueue(x, Reply(x.phase.response)).(phase := Reading), relayed)
  {
    var f := Reply(x.phase.response);
    AppendFrame(x.sent, f);
    HelloStaysFirst(x.sent, f);
    assert x.written + (x.queue + [f]) == x.sent + [f];
    assert x.served != [];
  }

  lemma SendHello(x: Session, relayed: seq<Event>)
    requires SessionOk(x, relayed) && x.phase == Registered && x.writing
    ensures SessionOk(Enqueue(x, Hello).(phase := Reading), relayed)
  {
    AppendFrame(x.sent, Hello);
    HelloStaysFirst(x.sent, Hello);
    assert x.written + (x.queue + [Hello]) == x.sent + [Hello];
  }

  lemma HelloStaysFirst(fs: seq<Frame>, f: Frame)
    requires HelloFirst(fs) && (f.Reply? ==> Hellos(fs) == 1)
    ensures HelloFirst(fs + [f])
  {
    forall i | 0 <= i < |fs + [f]| && (fs + [f])[i].Reply?
      ensures Hellos((fs + [f])[..i]) == 1
    {
      assert (fs + [f])[..i] == fs[..i];
      assert i == |fs| ==> fs[..i] == fs;
    }
  }

  lemma DeliverKeeps(x: Session, e: Event, relayed: seq<Event>)
    requires SessionOk(x, relayed)
    ensures SessionOk(Deliver(x, e), relayed + [e])
  {
    if x.registered && x.writing {
      AppendFrame(x.sent, Note(e));
      HelloStaysFirst(x.sent, Note(e));
      assert x.written + (x.queue + [Note(e)]) == x.sent + [Note(e)];
      assert (relayed + [e])[x.since..] == relayed[x.since..] + [e];
      assert Replies(x.sent) + [] == Replies(x.sent);
    } else if x.phase != Fresh {
      assert (relayed + [e])[x.since..] == relayed[x.since..] + [e];
    }
  }

  lemma HandledKeeps(x: Session, response: Response, relayed: seq<Event>)
    requires SessionOk(x, relayed) && x.phase == Handling && |x.served| < |x.requests|
    ensures SessionOk(x.(phase := Replying(response), served := x.served + [Served(x.requests[|x.served|], response)]), relayed)
  {
    AppendServed(x.served, Served(x.requests[|x.served|], response));
  }

  lemma WriterKeeps(x: Session, step: Step, relayed: seq<Event>)
    requires SessionOk(x, relayed) && (step.WriterWrites? || step.WriterFails?) && SessionStep(x, step, |relayed|).Some?
    ensures SessionOk(SessionStep(x, step, |relayed|).value, relayed)
  {
    assert (x.written + [x.queue[0]]) + x.queue[1..] == x.sent;
  }

  /** Steps that put nothing in the queue. */
  lemma PhaseKeeps(x: Session, step: Step, relayed: seq<Event>)
    requires SessionOk(x, relayed) && SessionStep(x, step, |relayed|).Some?
    requires step.Register? || step.ReadRequest? || step.ReadEnds? || step.Unregister?
             || (step.Greet? && !x.writing) || (step.QueueReply? && !x.writing)
    ensures SessionOk(SessionStep(x, step, |relayed|).value, relayed)
  {
  }

  lemma SessionKeeps(x: Session, step: Step, relayed: seq<Event>)
    requires SessionOk(x, relayed) && SessionStep(x, step, |relayed|).Some?
    ensures SessionOk(SessionStep(x, step, |relayed|).value, relayed)
  {
    if step.Greet? && x.writing {
      SendHello(x, relayed);
    } else if step.QueueReply? && x.writing {
      SendReply(x, relayed);
    } else if step.Handled? {
      HandledKeeps(x, step.response, relayed);
    } else if step.WriterWrites? || step.WriterFails? {
      WriterKeeps(x, step, relayed);
    } else {
      PhaseKeeps(x, step, relayed);
    }
  }

  lemma RelayKeeps(s: State)
    requires Inv(s) && Next(s, Relay).Some?
    ensures Inv(Next(s, Relay).value)
  {
    var s' := Next(s, Relay).value;
    forall c | c in s'.sessions
      ensures SessionOk(s'.sessions[c], s'.relayed)
    {
      DeliverKeeps(s.sessions[c], s.published[s.cursor], s.relayed);
    }
  }

  lemma OneSessionKeeps(s: State, step: Step)
    requires Inv(s) && !step.Publish? && !step.Lag? && !step.Relay? && !step.Accept? && Next(s, step).Some?
    ensures Inv(Next(s, step).value)
  {
    SessionKeeps(s.sessions[step.c], step, s.relayed);
  }

  lemma StepKeeps(s: State, step: Step)
    requires Inv(s) && Next(s, step).Some?
    ensures Inv(Next(s, step).value)
  {
    match step {
      case Publish(_) =>
      case Lag(_) =>
      case Relay => RelayKeeps(s);
      case Accept(_, _) =>
      case _ => OneSessionKeeps(s, step);
    }
  }

  lemma {:induction false} RunKeeps(steps: seq<Step>)
    requires Run(steps).Some?
    ensures Inv(Run(steps).value)
  {
    if steps != [] {
      RunKeeps(steps[..|steps| - 1]);
      StepKeeps(Run(steps[..|steps| - 1]).value, steps[|steps| - 1]);
    }
  }

  // ---- the theorem --------------------------------------------------------------

  /** What a client has on its wire: the handler's results for its first requests,
      in request order; an unbroken window of the relayed events; and at most one
      Hello, which stands before every reply. */
  ghost predicate Output(x: Session, relayed: seq<Event>) {
    && InOrder(x) && Replies(x.written) <= Responses(x.served)
    && x.since <= |relayed| && Notes(x.written) <= relayed[x.since..]
    && Hellos(x.written) <= 1 && HelloFirst(x.written)
  }

  lemma SessionOutput(x: Session, relayed: seq<Event>)
    requires SessionOk(x, relayed)
    ensures Output(x, relayed)
  {
    assert x.written == x.sent[..|x.written|];
    PrefixKinds(x.sent, |x.written|);
    forall i | 0 <= i < |x.written| && x.written[i].Reply?
      ensures Hellos(x.written[..i]) == 1
    {
      assert x.written[..i] == x.sent[..i];
    }
  }

  /** In any interleaving of any number of clients, every client's output is such a
      shuffle, and the relay is an in-order subsequence of the bus. */
  lemma ClientOutput(steps: seq<Step>, c: Client)
    requires Run(steps).Some? && c in Run(steps).value.sessions
    ensures var s := Run(steps).value; RelayOk(s) && Output(s.sessions[c], s.relayed)
  {
    RunKeeps(steps);
    SessionOutput(Run(steps).value.sessions[c], Run(steps).value.relayed);
  }

  /** While a client stays registered and its writer lives, nothing is missing:
      what is written and what is queued are all the relayed events and, between
      requests, all the handler's results. */
  lemma NoGaps(steps: seq<Step>, c: Client)
    requires Run(steps).Some? && c in Run(steps).value.sessions
    requires var x := Run(steps).value.sessions[c]; x.registered && x.writing
    ensures var s := Run(steps).value; var x := s.sessions[c];
            && x.since <= |s.relayed| && Notes(x.written + x.queue) == s.relayed[x.since..]
            && (x.phase == Reading ==> Replies(x.written + x.queue) == Responses(x.served))
  {
    RunKeeps(steps);
  }
}
