/** Pin stability, consent and the database, over every run of the trust machine. */
module TrustRuns {
  import opened Prelude
  import opened Trust

  // ---- one step -----------------------------------------------------------

  /** The three ways trust is given: a peer's yes to our outstanding request, an
      auto-accepted request while connected, a user's yes before the deadline. */
  predicate Grants(w: World, input: Input, id: Id) {
    && IsUp(w, id)
    && match input.cmd
       case PairFrom(from, pair) => from == id && pair == Some(true) && (Asked(w, id) || input.env.autoAccept)
       case PairingAnswer(from, accept) => from == id && accept && InTime(w, id, input.env.now)
       case _ => false
  }

  /** The two ways trust is withdrawn: our own unpair, and a pair-false packet
      that is not the answer to an outstanding request of ours. */
  predicate Revokes(w: World, input: Input, id: Id) {
    match input.cmd
    case Unpair(from) => from == id
    case PairFrom(from, pair) => from == id && pair == Some(false) && !Asked(w, id)
    case _ => false
  }

  /** The pin a command leaves, in memory or in the database, given what was there. */
  function PinAfter(w: World, input: Input, id: Id, was: Option<Fingerprint>): Option<Fingerprint> {
    if Grants(w, input, id) then Some(w.peers[id].live)
    else if Revokes(w, input, id) then None
    else was
  }

  /** One device's pin and its row's pin after a command with environment `env`. */
  predicate PinLaw(w: World, input: Input, id: Id, w': World) {
    && Pin(w', id) == PinAfter(w, input, id, Pin(w, id))
    && RowPin(w'.rows, id)
       == if id in w.peers && input.env.saved then PinAfter(w, input, id, RowPin(w.rows, id)) else RowPin(w.rows, id)
  }

  lemma PairLaw(w: World, from: Id, pair: bool, env: Env, id: Id)
    ensures PinLaw(w, Input(PairFrom(from, Some(pair)), env), id, OnPair(w, from, pair, env))
  {
  }

  lemma AnswerLaw(w: World, from: Id, accept: bool, env: Env, id: Id)
    ensures PinLaw(w, Input(PairingAnswer(from, accept), env), id, OnAnswer(w, from, accept, env))
  {
  }

  lemma ConnectedLaw(w: World, from: Id, digest: Digest, env: Env, id: Id)
    ensures PinLaw(w, Input(Connected(from, digest), env), id, OnConnected(w, from, digest))
  {
  }

  lemma StartLaw(w: World, from: Id, env: Env, id: Id)
    ensures PinLaw(w, Input(StartPairing(from), env), id, OnStartPairing(w, from, env))
  {
  }

  lemma UnpairLaw(w: World, from: Id, env: Env, id: Id)
    ensures PinLaw(w, Input(Unpair(from), env), id, OnUnpair(w, from, env))
  {
  }

  /** The exact law of one device's pin under one command, in memory and in the
      database: given only by the three grants, always the live fingerprint;
      taken only by the two revocations; unchanged by everything else. */
  lemma PinStep(w: World, input: Input, self: Id, id: Id)
    requires !input.cmd.Restart?
    ensures PinLaw(w, input, id, Step(w, input, self))
  {
    match input.cmd {
      case PairFrom(from, pair) => if pair.Some? { PairLaw(w, from, pair.value, input.env, id); }
      case PairingAnswer(from, accept) => AnswerLaw(w, from, accept, input.env, id);
      case Connected(from, digest) => ConnectedLaw(w, from, digest, input.env, id);
      case StartPairing(from) => StartLaw(w, from, input.env, id);
      case Unpair(from) => UnpairLaw(w, from, input.env, id);
      case _ =>
    }
  }

  // ---- memory and the database --------------------------------------------

  /** Every device but ourselves is pinned in memory as its row says. */
  ghost predicate Agrees(w: World, self: Id) {
    forall id :: id != self ==> Pin(w, id) == RowPin(w.rows, id)
  }

  ghost predicate AllSaved(inputs: seq<Input>) {
    forall i :: 0 <= i < |inputs| ==> inputs[i].env.saved
  }

  lemma LoadAgrees(rows: map<Id, Row>, self: Id)
    ensures Agrees(Load(rows, self), self)
  {
  }

  lemma StepAgrees(w: World, input: Input, self: Id)
    requires Agrees(w, self) && input.env.saved
    ensures Agrees(Step(w, input, self), self)
  {
    if input.cmd.Restart? {
      LoadAgrees(w.rows, self);
    } else {
      forall id | id != self
        ensures Pin(Step(w, input, self), id) == RowPin(Step(w, input, self).rows, id)
      {
        PinStep(w, input, self, id);
      }
    }
  }

  /** In every run without database errors, memory and database agree. */
  lemma {:induction false} RunAgrees(w: World, inputs: seq<Input>, self: Id)
    requires Agrees(w, self) && AllSaved(inputs)
    ensures Agrees(Run(w, inputs, self), self)
  {
    if inputs != [] {
      RunAgrees(w, inputs[..|inputs| - 1], self);
      StepAgrees(Run(w, inputs[..|inputs| - 1], self), inputs[|inputs| - 1], self);
    }
  }

  /** A restart at any point of such a run restores exactly the same pins. */
  lemma RestartIsTransparent(w: World, inputs: seq<Input>, self: Id, id: Id)
    requires Agrees(w, self) && AllSaved(inputs) && id != self
    ensures var now := Run(w, inputs, self);
            Pin(Load(now.rows, self), id) == Pin(now, id)
  {
    RunAgrees(w, inputs, self);
    LoadAgrees(Run(w, inputs, self).rows, self);
  }

  /** With a failed write, memory and the row still agree about a device exactly
      when the command did not change its pin. */
  lemma FailedSave(w: World, input: Input, self: Id, id: Id)
    requires !input.cmd.Restart? && !input.env.saved
    requires Pin(w, id) == RowPin(w.rows, id)
    ensures var w' := Step(w, input, self);
            Pin(w', id) == RowPin(w'.rows, id) <==> PinAfter(w, input, id, Pin(w, id)) == Pin(w, id)
  {
    PinStep(w, input, self, id);
  }

  // ---- pins over whole runs -------------------------------------------------

  /** Nothing revoked `id` from step `from` on. */
  ghost predicate Unrevoked(w: World, inputs: seq<Input>, self: Id, id: Id, from: nat) {
    forall i :: from <= i < |inputs| ==> !Revokes(Run(w, inputs[..i], self), inputs[i], id)
  }

  /** The run stays in one process, or restarts find a faithful database. */
  ghost predicate Durable(w: World, inputs: seq<Input>, self: Id, id: Id) {
    || (forall i :: 0 <= i < |inputs| ==> !inputs[i].cmd.Restart?)
    || (id != self && Agrees(w, self) && AllSaved(inputs))
  }

  lemma UnrevokedPrefix(w: World, inputs: seq<Input>, self: Id, id: Id, from: nat)
    requires inputs != [] && Unrevoked(w, inputs, self, id, from)
    ensures Unrevoked(w, inputs[..|inputs| - 1], self, id, from)
  {
    var front := inputs[..|inputs| - 1];
    forall i | from <= i < |front|
      ensures !Revokes(Run(w, front[..i], self), front[i], id)
    {
      assert front[..i] == inputs[..i] && front[i] == inputs[i];
    }
  }

  lemma UnrevokedExtend(w: World, inputs: seq<Input>, self: Id, id: Id, from: nat)
    requires inputs != [] && Unrevoked(w, inputs[..|inputs| - 1], self, id, from)
    requires !Revokes(Run(w, inputs[..|inputs| - 1], self), inputs[|inputs| - 1], id)
    ensures Unrevoked(w, inputs, self, id, from)
  {
    var front := inputs[..|inputs| - 1];
    forall i | from <= i < |inputs|
      ensures !Revokes(Run(w, inputs[..i], self), inputs[i], id)
    {
      assert i < |front| ==> front[..i] == inputs[..i] && front[i] == inputs[i];
    }
  }

  /** The last step of a durable run: its pin law, restart included. */
  lemma LastStep(w: World, inputs: seq<Input>, self: Id, id: Id)
    requires inputs != [] && Durable(w, inputs, self, id)
    ensures Durable(w, inputs[..|inputs| - 1], self, id)
    ensures var before := Run(w, inputs[..|inputs| - 1], self);
            Pin(Run(w, inputs, self), id) == PinAfter(before, inputs[|inputs| - 1], id, Pin(before, id))
  {
    var front, last := inputs[..|inputs| - 1], inputs[|inputs| - 1];
    if last.cmd.Restart? {
      RestartIsTransparent(w, front, self, id);
    } else {
      PinStep(Run(w, front, self), last, self, id);
    }
  }

  /** A pin is never silently replaced: it stands, unchanged, until revoked. */
  lemma {:induction false} PinIsStable(w: World, inputs: seq<Input>, self: Id, id: Id, f: Fingerprint)
    requires Pin(w, id) == Some(f) && Durable(w, inputs, self, id)
    requires Unrevoked(w, inputs, self, id, 0)
    ensures Pin(Run(w, inputs, self), id) == Some(f)
  {
    if inputs != [] {
      UnrevokedPrefix(w, inputs, self, id, 0);
      LastStep(w, inputs, self, id);
      PinIsStable(w, inputs[..|inputs| - 1], self, id, f);
    }
  }

  /** No trust without consent: a pin that was not there before was granted in
      the run, to the certificate then live, and not revoked since. */
  lemma {:induction false} Consent(w: World, inputs: seq<Input>, self: Id, id: Id, f: Fingerprint) returns (k: nat)
    requires Pin(w, id) != Some(f) && Durable(w, inputs, self, id)
    requires Pin(Run(w, inputs, self), id) == Some(f)
    ensures k < |inputs|
    ensures Grants(Run(w, inputs[..k], self), inputs[k], id) && Run(w, inputs[..k], self).peers[id].live == f
    ensures Unrevoked(w, inputs, self, id, k + 1)
  {
    var front := inputs[..|inputs| - 1];
    LastStep(w, inputs, self, id);
    if Pin(Run(w, front, self), id) == Some(f) {
      k := Consent(w, front, self, id, f);
      assert front[..k] == inputs[..k];
      UnrevokedExtend(w, inputs, self, id, k + 1);
    } else {
      k := |front|;
    }
  }

  // ---- fingerprints ---------------------------------------------------------

  ghost predicate RealPin(pin: Option<Fingerprint>) {
    pin.Some? ==> exists d: Digest :: pin.value == Hex(d)
  }

  /** Every pin and every live fingerprint is the text of some certificate. */
  ghost predicate Real(w: World) {
    && (forall id :: id in w.peers && w.peers[id].Online? ==> RealPin(Some(w.peers[id].live)))
    && (forall id :: RealPin(Pin(w, id)))
    && (forall id :: RealPin(RowPin(w.rows, id)))
  }

  /** `id` is connected in `w'` only over the certificate it had in `w`. */
  predicate SameLive(w: World, w': World, id: Id) {
    IsUp(w', id) ==> IsUp(w, id) && w.peers[id].live == w'.peers[id].live
  }

  lemma PairLive(w: World, from: Id, pair: bool, env: Env, id: Id)
    ensures SameLive(w, OnPair(w, from, pair, env), id)
  {
  }

  lemma AnswerLive(w: World, from: Id, accept: bool, env: Env, id: Id)
    ensures SameLive(w, OnAnswer(w, from, accept, env), id)
  {
  }

  lemma LiveStep(w: World, input: Input, self: Id, id: Id)
    ensures var w' := Step(w, input, self);
            || SameLive(w, w', id)
            || (input.cmd.Connected? && w'.peers[id].live == Hex(input.cmd.digest))
  {
    match input.cmd {
      case PairFrom(from, pair) => if pair.Some? { PairLive(w, from, pair.value, input.env, id); }
      case PairingAnswer(from, accept) => AnswerLive(w, from, accept, input.env, id);
      case _ =>
    }
  }

  lemma StepReal(w: World, input: Input, self: Id)
    requires Real(w)
    ensures Real(Step(w, input, self))
  {
    var w' := Step(w, input, self);
    forall id
      ensures IsUp(w', id) ==> RealPin(Some(w'.peers[id].live))
      ensures RealPin(Pin(w', id)) && RealPin(RowPin(w'.rows, id))
    {
      assert RealPin(Pin(w, id)) && RealPin(RowPin(w.rows, id));
      if IsUp(w', id) {
        LiveStep(w, input, self, id);
      }
      if !input.cmd.Restart? {
        PinStep(w, input, self, id);
      }
    }
  }

  /** A pin is never empty: in every run it is the fingerprint of a certificate. */
  lemma {:induction false} RunReal(w: World, inputs: seq<Input>, self: Id)
    requires Real(w)
    ensures Real(Run(w, inputs, self))
  {
    if inputs != [] {
      RunReal(w, inputs[..|inputs| - 1], self);
      StepReal(Run(w, inputs[..|inputs| - 1], self), inputs[|inputs| - 1], self);
    }
  }

  /** The pinning gate: a pinned device is reached, after a connection attempt,
      over the certificate it was paired with and over no other. */
  lemma PinningGate(w: World, id: Id, pinned: Digest, shown: Digest)
    requires Pin(w, id) == Some(Hex(pinned))
    ensures var w' := OnConnected(w, id, shown);
            && (shown == pinned ==> IsUp(w', id) && w'.peers[id].live == Hex(pinned))
            && (shown != pinned ==> w'.peers == w.peers && w'.bus == w.bus + [CertMismatch(id)])
  {
    if Hex(pinned) == Hex(shown) {
      HexInjective(pinned, shown);
    }
  }
}
