/** Over whole runs: how long a parked request can be answered, and where every word
    to a peer or a caller comes from. */
module PairingRuns {
  import opened Prelude
  import opened Trust
  import opened TrustLaws
  import TrustRuns

  // ---- thirty seconds --------------------------------------------------------------

  /** The j-th input is a request of `id`, parked with this deadline ever since. */
  ghost predicate ParkedSince(w: World, inputs: seq<Input>, self: Id, id: Id, j: nat, deadline: Time) {
    && j < |inputs| && inputs[j].cmd == PairFrom(id, Some(true)) && deadline == inputs[j].env.now + 30_000
    && forall i :: j < i <= |inputs| ==> ParkedOf(Run(w, inputs[..i], self), id) == Some(deadline)
  }

  lemma ParkedLonger(w: World, inputs: seq<Input>, self: Id, id: Id, j: nat, deadline: Time)
    requires inputs != [] && ParkedSince(w, inputs[..|inputs| - 1], self, id, j, deadline)
    requires ParkedOf(Run(w, inputs, self), id) == Some(deadline)
    ensures ParkedSince(w, inputs, self, id, j, deadline)
  {
    var front := inputs[..|inputs| - 1];
    assert front[j] == inputs[j];
    forall i | j < i <= |inputs|
      ensures ParkedOf(Run(w, inputs[..i], self), id) == Some(deadline)
    {
      if i == |inputs| {
        assert inputs[..i] == inputs;
      } else {
        assert front[..i] == inputs[..i];
      }
    }
  }

  lemma JustParked(w: World, inputs: seq<Input>, self: Id, id: Id)
    requires inputs != [] && inputs[|inputs| - 1].cmd == PairFrom(id, Some(true))
    requires ParkedOf(Run(w, inputs, self), id) == Some(inputs[|inputs| - 1].env.now + 30_000)
    ensures ParkedSince(w, inputs, self, id, |inputs| - 1, inputs[|inputs| - 1].env.now + 30_000)
  {
    assert inputs[..|inputs|] == inputs;
  }

  /** A parked request came from a packet of the run, thirty seconds before its deadline. */
  lemma {:induction false} ParkedBy(w: World, inputs: seq<Input>, self: Id, id: Id) returns (j: nat)
    requires ParkedOf(w, id) == None && ParkedOf(Run(w, inputs, self), id).Some?
    ensures ParkedSince(w, inputs, self, id, j, ParkedOf(Run(w, inputs, self), id).value)
  {
    var n := |inputs| - 1;
    var before := Run(w, inputs[..n], self);
    ParkedLaw(before, inputs[n], self, id);
    if ParkedOf(before, id) == ParkedOf(Run(w, inputs, self), id) {
      j := ParkedBy(w, inputs[..n], self, id);
      ParkedLonger(w, inputs, self, id, j, ParkedOf(before, id).value);
    } else {
      j := n;
      JustParked(w, inputs, self, id);
    }
  }

  /** An answer that comes too late does nothing but forget the request. */
  lemma LateAnswer(w: World, id: Id, accept: bool, env: Env)
    requires Parked(w, id) && env.now > w.peers[id].parked.value
    ensures OnAnswer(w, id, accept, env) == w.(peers := w.peers[id := w.peers[id].(parked := None)])
    ensures forall o :: Pin(OnAnswer(w, id, accept, env), o) == Pin(w, o)
  {
  }

  /** A user's answer to a parked request takes effect if and only if it comes within
      thirty seconds of the packet that asked: then a yes pins the live certificate and
      a no pins nothing, and the peer hears it; otherwise nothing but the request goes. */
  lemma AnswerInTime(rows: map<Id, Row>, inputs: seq<Input>, self: Id, id: Id, accept: bool, env: Env) returns (j: nat)
    requires Parked(Run(Load(rows, self), inputs, self), id)
    ensures var w := Run(Load(rows, self), inputs, self);
      var w' := Step(w, Input(PairingAnswer(id, accept), env), self);
      && ParkedSince(Load(rows, self), inputs, self, id, j, w.peers[id].parked.value)
      && (env.now <= inputs[j].env.now + 30_000 ==>
            && Pin(w', id) == (if accept then Some(w.peers[id].live) else Pin(w, id))
            && w'.sent == w.sent + if env.room then [Sent(id, accept, Answer)] else [])
      && (env.now > inputs[j].env.now + 30_000 ==>
            w' == w.(peers := w.peers[id := w.peers[id].(parked := None)]))
      && !Parked(w', id)
  {
    var w, answer := Run(Load(rows, self), inputs, self), Input(PairingAnswer(id, accept), env);
    j := ParkedBy(Load(rows, self), inputs, self, id);
    ParkedLaw(w, answer, self, id);
    if env.now > w.peers[id].parked.value {
      LateAnswer(w, id, accept, env);
    } else {
      TrustRuns.PinStep(w, answer, self, id);
      SentLaw(w, answer, self);
    }
  }

  // ---- every word has its cause --------------------------------------------------------

  lemma InConcat<T>(a: seq<T>, b: seq<T>, x: T)
    ensures x in a + b <==> x in a || x in b
  {
  }

  /** Every packet sent is the packet of some command of the run. With `Packets`: a
      request and an automatic yes say yes, an expiry and a revocation say no, and an
      answer says what the user said, in time. */
  lemma {:induction false} SentBy(rows: map<Id, Row>, inputs: seq<Input>, self: Id, m: Sent) returns (k: nat)
    requires m in Run(Load(rows, self), inputs, self).sent
    ensures k < |inputs| && m in Packets(Run(Load(rows, self), inputs[..k], self), inputs[k])
    ensures m.why == Request || m.why == AutoAccept ==> m.pair
    ensures m.why == Expired || m.why == Revoke ==> !m.pair
    ensures m.why == Answer ==> inputs[k].cmd == PairingAnswer(m.to, m.pair)
  {
    var n := |inputs| - 1;
    var front := inputs[..n];
    var before := Run(Load(rows, self), front, self);
    if !inputs[n].cmd.Restart? {
      SentLaw(before, inputs[n], self);
      InConcat(before.sent, Packets(before, inputs[n]), m);
    }
    if m in Packets(before, inputs[n]) {
      k := n;
    } else {
      k := SentBy(rows, front, self, m);
      assert front[..k] == inputs[..k];
    }
  }

  /** A caller is told yes or no exactly as the peer said it in a pair packet that came
      while that caller's request was open. */
  lemma {:induction false} ToldBy(rows: map<Id, Row>, inputs: seq<Input>, self: Id, told: Resolved) returns (k: nat)
    requires told in Run(Load(rows, self), inputs, self).answers
    ensures k < |inputs| && told in Verdicts(Run(Load(rows, self), inputs[..k], self), inputs[k])
    ensures told.outcome.Decided? ==>
      && inputs[k].cmd.PairFrom? && inputs[k].cmd.pair == Some(told.outcome.pair)
      && AskedOf(Run(Load(rows, self), inputs[..k], self), inputs[k].cmd.id) == Some(told.reply)
  {
    var n := |inputs| - 1;
    var front := inputs[..n];
    var before := Run(Load(rows, self), front, self);
    if !inputs[n].cmd.Restart? {
      VerdictLaw(before, inputs[n], self);
      InConcat(before.answers, Verdicts(before, inputs[n]), told);
    }
    if told in Verdicts(before, inputs[n]) {
      k := n;
    } else {
      k := ToldBy(rows, front, self, told);
      assert front[..k] == inputs[..k];
    }
  }
}
