/** What a client can count on over a whole run of the server: every event published
    since it registered, and every result the handler gave for it. */
module IpcServerRuns {
  import opened Prelude
  import opened IpcServer

  // ---- the bus and the relay ---------------------------------------------------------

  /** Everything published, in order. */
  function Bus(steps: seq<Step>): seq<Event> {
    if steps == [] then []
    else
      var last := steps[|steps| - 1];
      Bus(steps[..|steps| - 1]) + if last.Publish? then [last.event] else []
  }

  /** How many events the relay was told it had missed. */
  function Skipped(steps: seq<Step>): nat {
    if steps == [] then 0
    else
      var last := steps[|steps| - 1];
      Skipped(steps[..|steps| - 1]) + if last.Lag? then last.skipped else 0
  }

  predicate RelayedAll(s: State, bus: seq<Event>, skipped: nat) {
    && s.published == bus && s.cursor <= |bus| && |s.relayed| + skipped == s.cursor
    && (skipped == 0 ==> s.relayed == bus[..s.cursor])
  }

  lemma SessionsKeepRelay(s: State, step: Step)
    requires Next(s, step).Some? && !step.Publish? && !step.Lag? && !step.Relay?
    ensures var s' := Next(s, step).value; s'.published == s.published && s'.cursor == s.cursor && s'.relayed == s.relayed
  {
  }

  lemma RelayStep(s: State, step: Step, bus: seq<Event>, skipped: nat)
    requires RelayedAll(s, bus, skipped) && Next(s, step).Some?
    ensures RelayedAll(Next(s, step).value, bus + (if step.Publish? then [step.event] else []),
                       skipped + if step.Lag? then step.skipped else 0)
  {
    if step.Publish? {
      assert (bus + [step.event])[..s.cursor] == bus[..s.cursor];
    } else {
      assert bus + [] == bus;
      if step.Relay? {
        assert bus[..s.cursor + 1] == bus[..s.cursor] + [bus[s.cursor]];
      } else if !step.Lag? {
        SessionsKeepRelay(s, step);
      }
    }
  }

  /** The relay takes every event it is not told it missed, and without such a lag it
      has relayed the bus up to its place in it. */
  lemma {:induction false} RelayCounts(steps: seq<Step>)
    requires Run(steps).Some?
    ensures RelayedAll(Run(steps).value, Bus(steps), Skipped(steps))
  {
    if steps != [] {
      var front := steps[..|steps| - 1];
      RelayCounts(front);
      RelayStep(Run(front).value, steps[|steps| - 1], Bus(front), Skipped(front));
    }
  }

  // ---- one session over the run --------------------------------------------------------

  predicate IsOf(step: Step, c: Client) {
    !step.Publish? && !step.Lag? && !step.Relay? && step.c == c
  }

  /** While its writer lives, a session is registered exactly from its registration to
      its teardown. */
  predicate InService(x: Session) {
    x.writing ==> (x.registered <==> x.phase != Fresh && x.phase != Over)
  }

  lemma SessionServed(x: Session, step: Step, n: nat)
    requires InService(x) && SessionStep(x, step, n).Some?
    ensures InService(SessionStep(x, step, n).value)
  {
  }

  lemma {:induction false} RunServes(steps: seq<Step>, c: Client)
    requires Run(steps).Some? && c in Run(steps).value.sessions
    ensures InService(Run(steps).value.sessions[c])
  {
    var front, last := steps[..|steps| - 1], steps[|steps| - 1];
    var s := Run(front).value;
    if c in s.sessions {
      RunServes(front, c);
      if IsOf(last, c) {
        SessionServed(s.sessions[c], last, |s.relayed|);
      }
    }
  }

  /** The results the handler gave for `c`, in order. */
  function Results(steps: seq<Step>, c: Client): seq<Response> {
    if steps == [] then []
    else
      var last := steps[|steps| - 1];
      Results(steps[..|steps| - 1], c) + if last.Handled? && last.c == c then [last.response] else []
  }

  /** The requests of `c`, as it was accepted with them. */
  function Asked(steps: seq<Step>, c: Client): seq<Request> {
    if steps == [] then []
    else
      var last := steps[|steps| - 1];
      if last.Accept? && last.c == c then last.requests else Asked(steps[..|steps| - 1], c)
  }

  predicate Faithful(x: Session, requests: seq<Request>, results: seq<Response>) {
    x.requests == requests && Responses(x.served) == results
  }

  lemma SessionFaithful(x: Session, step: Step, n: nat, requests: seq<Request>, results: seq<Response>)
    requires Faithful(x, requests, results) && SessionStep(x, step, n).Some?
    ensures Faithful(SessionStep(x, step, n).value, requests, results + if step.Handled? then [step.response] else [])
  {
    if step.Handled? {
      AppendServed(x.served, Served(x.requests[|x.served|], step.response));
    } else {
      assert results + [] == results;
    }
  }

  lemma DeliverFaithful(x: Session, e: Event, requests: seq<Request>, results: seq<Response>)
    requires Faithful(x, requests, results)
    ensures Faithful(Deliver(x, e), requests, results)
  {
  }

  /** The requests a session answers are those it was accepted with, and the results it
      records those the handler gave. */
  lemma {:induction false} RunFaithful(steps: seq<Step>, c: Client)
    requires Run(steps).Some?
    ensures c in Run(steps).value.sessions ==> Faithful(Run(steps).value.sessions[c], Asked(steps, c), Results(steps, c))
    ensures c !in Run(steps).value.sessions ==> Results(steps, c) == []
  {
    if steps != [] {
      var front, last := steps[..|steps| - 1], steps[|steps| - 1];
      var s := Run(front).value;
      RunFaithful(front, c);
      assert Results(front, c) + [] == Results(front, c);
      if c in s.sessions {
        if last.Relay? {
          DeliverFaithful(s.sessions[c], s.published[s.cursor], Asked(front, c), Results(front, c));
        } else if IsOf(last, c) {
          SessionFaithful(s.sessions[c], last, |s.relayed|, Asked(front, c), Results(front, c));
        }
      }
    }
  }

  // ---- why it ends ------------------------------------------------------------------------

  /** A writer stops only by failing, and a session closes only because its stream
      ended or its writer failed. */
  ghost predicate EndsWell(x: Session, steps: seq<Step>, c: Client) {
    && (!x.writing ==> WriterFails(c) in steps)
    && (x.phase == Closing || x.phase == Over ==> ReadEnds(c) in steps || WriterFails(c) in steps)
  }

  lemma SessionEnds(x: Session, steps: seq<Step>, c: Client, step: Step, n: nat)
    requires EndsWell(x, steps, c) && IsOf(step, c) && SessionStep(x, step, n).Some?
    ensures EndsWell(SessionStep(x, step, n).value, steps + [step], c)
  {
  }

  lemma {:induction false} EndsBecause(steps: seq<Step>, c: Client)
    requires Run(steps).Some? && c in Run(steps).value.sessions
    ensures EndsWell(Run(steps).value.sessions[c], steps, c)
  {
    var front, last := steps[..|steps| - 1], steps[|steps| - 1];
    var s := Run(front).value;
    assert steps == front + [last];
    if c in s.sessions {
      EndsBecause(front, c);
      if IsOf(last, c) {
        SessionEnds(s.sessions[c], front, c, last, |s.relayed|);
      }
    }
  }

  /** A session whose writer is gone is dropped from the registry by the next event, and
      ends at its next reply, or before its first request. */
  lemma DeadWriterEnds(s: State, c: Client)
    requires c in s.sessions && !s.sessions[c].writing
    ensures Next(s, Relay).Some? ==> c in Next(s, Relay).value.sessions && !Next(s, Relay).value.sessions[c].registered
    ensures Next(s, QueueReply(c)).Some? ==> Next(s, QueueReply(c)).value.sessions[c].phase == Closing
    ensures Next(s, Greet(c)).Some? ==> Next(s, Greet(c)).value.sessions[c].phase == Over
  {
  }

  // ---- when it registered ------------------------------------------------------------------

  /** The k-th step registered `c`, and its window opens where the relay stood then. */
  predicate RegisteredAt(steps: seq<Step>, c: Client, k: nat) {
    && k < |steps| && steps[k] == Register(c) && Run(steps[..k]).Some?
    && Run(steps).Some? && c in Run(steps).value.sessions
    && Run(steps).value.sessions[c].since == |Run(steps[..k]).value.relayed|
  }

  lemma SinceStays(s: State, step: Step, c: Client)
    requires Next(s, step).Some? && c in s.sessions && s.sessions[c].phase != Fresh
    ensures c in Next(s, step).value.sessions
    ensures Next(s, step).value.sessions[c].since == s.sessions[c].since && Next(s, step).value.sessions[c].phase != Fresh
  {
  }

  lemma {:induction false} Registration(steps: seq<Step>, c: Client) returns (k: nat)
    requires Run(steps).Some? && c in Run(steps).value.sessions && Run(steps).value.sessions[c].phase != Fresh
    ensures RegisteredAt(steps, c, k)
  {
    var n := |steps| - 1;
    var front, last := steps[..n], steps[n];
    var s := Run(front).value;
    if c in s.sessions && s.sessions[c].phase != Fresh {
      k := Registration(front, c);
      SinceStays(s, last, c);
      assert front[..k] == steps[..k];
    } else {
      k := n;
    }
  }

  // ---- the theorem ----------------------------------------------------------------------------

  /** In every run, a registered client whose stream has not ended and whose writer has
      not failed has, on its wire and in its queue, every event the relay took since the
      client registered and, between requests, every result of the handler, both in
      order. When the relay never lagged, those are all the events published from then
      up to the relay's place. */
  lemma NothingMissing(steps: seq<Step>, c: Client) returns (k: nat)
    requires Run(steps).Some? && c in Run(steps).value.sessions && Run(steps).value.sessions[c].phase != Fresh
    requires ReadEnds(c) !in steps && WriterFails(c) !in steps
    ensures RegisteredAt(steps, c, k)
    ensures var s := Run(steps).value; var x := s.sessions[c];
      && x.since <= |s.relayed| && Notes(x.written + x.queue) == s.relayed[x.since..]
      && (Skipped(steps) == 0 ==>
            && Run(steps[..k]).value.cursor <= s.cursor <= |Bus(steps)|
            && Notes(x.written + x.queue) == Bus(steps)[Run(steps[..k]).value.cursor..s.cursor])
      && (x.phase == Reading ==> Replies(x.written + x.queue) == Results(steps, c))
  {
    EndsBecause(steps, c);
    k := Registration(steps, c);
    RunServes(steps, c);
    NoGaps(steps, c);
    RunFaithful(steps, c);
    RelayCounts(steps);
    RelayCounts(steps[..k]);
    if Skipped(steps) == 0 {
      SkippedPrefix(steps, k);
      var s, at := Run(steps).value, Run(steps[..k]).value.cursor;
      assert s.relayed[at..] == Bus(steps)[..s.cursor][at..] == Bus(steps)[at..s.cursor];
    }
  }

  lemma {:induction false} SkippedPrefix(steps: seq<Step>, k: nat)
    requires k <= |steps|
    ensures Skipped(steps[..k]) <= Skipped(steps)
    decreases |steps|
  {
    if k == |steps| {
      assert steps[..k] == steps;
    } else {
      SkippedPrefix(steps[..|steps| - 1], k);
      assert steps[..|steps| - 1][..k] == steps[..k];
    }
  }
}
