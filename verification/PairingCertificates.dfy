/** Which certificate a pairing pins: the one that was live when the request was
    made, or one that a later connection showed while the request stood. */
module PairingCertificates {
  import opened Prelude
  import opened Trust
  import TrustRuns

  // ---- requests that stand for a while ------------------------------------------

  /** Who asked: we did and wait for the peer, or the peer did and waits for the user. */
  datatype Side = ByUs | ByPeer

  predicate Stands(w: World, id: Id, side: Side) {
    if side == ByUs then Asked(w, id) else Parked(w, id)
  }

  /** The step that makes the request. */
  predicate Makes(w: World, input: Input, id: Id, side: Side) {
    && IsUp(w, id)
    && match side
       case ByUs => input.cmd == StartPairing(id) && !w.peers[id].trusted && input.env.room
       case ByPeer => input.cmd == PairFrom(id, Some(true)) && !Asked(w, id) && !input.env.autoAccept
  }

  /** The yes that the request was for. */
  predicate Accepts(w: World, input: Input, id: Id, side: Side) {
    match side
    case ByUs => input.cmd == PairFrom(id, Some(true)) && Asked(w, id)
    case ByPeer => input.cmd == PairingAnswer(id, true) && InTime(w, id, input.env.now)
  }

  lemma PairStands(w: World, from: Id, pair: bool, env: Env, id: Id, side: Side)
    requires Stands(OnPair(w, from, pair, env), id, side)
    ensures Stands(w, id, side) || Makes(w, Input(PairFrom(from, Some(pair)), env), id, side)
  {
  }

  lemma StartStands(w: World, from: Id, env: Env, id: Id, side: Side)
    requires Stands(OnStartPairing(w, from, env), id, side)
    ensures Stands(w, id, side) || Makes(w, Input(StartPairing(from), env), id, side)
  {
  }

  lemma AnswerStands(w: World, from: Id, accept: bool, env: Env, id: Id, side: Side)
    requires Stands(OnAnswer(w, from, accept, env), id, side)
    ensures Stands(w, id, side)
  {
  }

  lemma StandsBecause(w: World, input: Input, self: Id, id: Id, side: Side)
    requires Stands(Step(w, input, self), id, side)
    ensures Stands(w, id, side) || Makes(w, input, id, side)
  {
    match input.cmd {
      case PairFrom(from, pair) => if pair.Some? { PairStands(w, from, pair.value, input.env, id, side); }
      case StartPairing(from) => StartStands(w, from, input.env, id, side);
      case PairingAnswer(from, accept) => AnswerStands(w, from, accept, input.env, id, side);
      case _ =>
    }
  }

  /** The j-th input made the request, and it has stood ever since. */
  ghost predicate Since(w: World, inputs: seq<Input>, self: Id, id: Id, side: Side, j: nat) {
    && j < |inputs| && Makes(Run(w, inputs[..j], self), inputs[j], id, side)
    && forall i :: j < i <= |inputs| ==> Stands(Run(w, inputs[..i], self), id, side)
  }

  lemma SinceExtends(w: World, inputs: seq<Input>, self: Id, id: Id, side: Side, j: nat)
    requires inputs != [] && Since(w, inputs[..|inputs| - 1], self, id, side, j)
    requires Stands(Run(w, inputs, self), id, side)
    ensures Since(w, inputs, self, id, side, j)
  {
    var front := inputs[..|inputs| - 1];
    assert front[..j] == inputs[..j] && front[j] == inputs[j];
    forall i | j < i <= |inputs|
      ensures Stands(Run(w, inputs[..i], self), id, side)
    {
      if i == |inputs| {
        assert inputs[..i] == inputs;
      } else {
        assert front[..i] == inputs[..i];
      }
    }
  }

  lemma SinceNow(w: World, inputs: seq<Input>, self: Id, id: Id, side: Side)
    requires inputs != [] && Stands(Run(w, inputs, self), id, side)
    requires Makes(Run(w, inputs[..|inputs| - 1], self), inputs[|inputs| - 1], id, side)
    ensures Since(w, inputs, self, id, side, |inputs| - 1)
  {
    assert inputs[..|inputs|] == inputs;
  }

  /** Every standing request was made, by a step of the run, and stood since. */
  lemma {:induction false} Origin(w: World, inputs: seq<Input>, self: Id, id: Id, side: Side) returns (j: nat)
    requires !Stands(w, id, side) && Stands(Run(w, inputs, self), id, side)
    ensures Since(w, inputs, self, id, side, j)
  {
    var n := |inputs| - 1;
    var before := Run(w, inputs[..n], self);
    StandsBecause(before, inputs[n], self, id, side);
    if Makes(before, inputs[n], id, side) {
      SinceNow(w, inputs, self, id, side);
      j := n;
    } else {
      j := Origin(w, inputs[..n], self, id, side);
      SinceExtends(w, inputs, self, id, side, j);
    }
  }

  // ---- the certificate meanwhile ----------------------------------------------------

  function Live(w: World, id: Id): Fingerprint {
    if IsUp(w, id) then w.peers[id].live else ""
  }

  /** A connection of `id` that the pinning gate lets through. */
  predicate Shows(w: World, input: Input, id: Id) {
    && input.cmd.Connected? && input.cmd.id == id
    && (Pin(w, id) == None || Pin(w, id) == Some(Hex(input.cmd.digest)))
  }

  lemma LiveFollows(w: World, input: Input, self: Id, id: Id)
    requires IsUp(w, id) && IsUp(Step(w, input, self), id)
    ensures Live(Step(w, input, self), id) == if Shows(w, input, id) then Hex(input.cmd.digest) else Live(w, id)
  {
    match input.cmd {
      case PairFrom(from, pair) => if pair.Some? { TrustRuns.PairLive(w, from, pair.value, input.env, id); }
      case PairingAnswer(from, accept) => TrustRuns.AnswerLive(w, from, accept, input.env, id);
      case _ =>
    }
  }

  /** The last input, from the j-th on, with which `id` connected; -1 without one. */
  function LastConnection(w: World, inputs: seq<Input>, self: Id, id: Id, j: nat): (i: int)
    ensures i == -1 || (j <= i < |inputs| && inputs[i].cmd.Connected?)
    decreases |inputs|
  {
    if |inputs| <= j then -1
    else
      var n := |inputs| - 1;
      if Shows(Run(w, inputs[..n], self), inputs[n], id) then n else LastConnection(w, inputs[..n], self, id, j)
  }

  lemma {:induction false} LiveIsLastShown(w: World, inputs: seq<Input>, self: Id, id: Id, j: nat)
    requires j <= |inputs| && forall i :: j <= i <= |inputs| ==> IsUp(Run(w, inputs[..i], self), id)
    ensures var i := LastConnection(w, inputs, self, id, j);
            Live(Run(w, inputs, self), id) == if i == -1 then Live(Run(w, inputs[..j], self), id) else Hex(inputs[i].cmd.digest)
  {
    assert inputs[..|inputs|] == inputs;
    if j < |inputs| {
      var n := |inputs| - 1;
      var front := inputs[..n];
      forall i | j <= i <= |front|
        ensures IsUp(Run(w, front[..i], self), id)
      {
        assert front[..i] == inputs[..i];
      }
      assert front[..j] == inputs[..j];
      assert IsUp(Run(w, front, self), id);
      LiveIsLastShown(w, front, self, id, j);
      LiveFollows(Run(w, front, self), inputs[n], self, id);
    }
  }

  // ---- the theorem ----------------------------------------------------------------------

  /** The certificate pinned by a yes is the one that was live when the request was
      made, if and only if the last connection of that device since then, if there was
      one, showed the same certificate. */
  lemma PinnedCertificate(rows: map<Id, Row>, inputs: seq<Input>, input: Input, self: Id, id: Id, side: Side)
      returns (j: nat)
    requires Accepts(Run(Load(rows, self), inputs, self), input, id, side)
    ensures Since(Load(rows, self), inputs, self, id, side, j)
    ensures var w := Load(rows, self);
      var i := LastConnection(w, inputs, self, id, j);
      var requested := Live(Run(w, inputs[..j], self), id);
      Pin(Step(Run(w, inputs, self), input, self), id) == Some(requested)
      <==> i == -1 || Hex(inputs[i].cmd.digest) == requested
  {
    var w := Load(rows, self);
    j := Origin(w, inputs, self, id, side);
    assert inputs[..|inputs|] == inputs;
    forall i | j <= i <= |inputs|
      ensures IsUp(Run(w, inputs[..i], self), id)
    {
      assert j < i ==> Stands(Run(w, inputs[..i], self), id, side);
    }
    LiveIsLastShown(w, inputs, self, id, j);
    TrustRuns.PinStep(Run(w, inputs, self), input, self, id);
    assert TrustRuns.Grants(Run(w, inputs, self), input, id);
  }

  const CALM: Env := Env(0, true, true, false)

  function Exchange(id: Id, a: Digest, b: Digest): seq<Input> {
    [Input(Connected(id, a), CALM), Input(PairFrom(id, Some(true)), CALM), Input(Connected(id, b), CALM)]
  }

  lemma RunExchange(w: World, self: Id, id: Id, a: Digest, b: Digest)
    ensures var inputs := Exchange(id, a, b);
      && Run(w, inputs[..1], self) == OnConnected(w, id, a)
      && Run(w, inputs[..2], self) == OnPair(OnConnected(w, id, a), id, true, CALM)
      && Run(w, inputs, self) == OnConnected(OnPair(OnConnected(w, id, a), id, true, CALM), id, b)
  {
    var inputs := Exchange(id, a, b);
    assert inputs[..2][..1] == inputs[..1] && inputs[..1][..0] == [];
  }

  /** The device meanwhile: asked for over the one certificate, parked, live over the other. */
  lemma ExchangePeers(self: Id, id: Id, a: Digest, b: Digest)
    ensures var w := Load(map[], self); var inputs := Exchange(id, a, b); var shell := Profile(id, "unknown");
      && IsUp(Run(w, inputs[..1], self), id) && Run(w, inputs[..1], self).peers[id] == Online(shell, Hex(a), false, None, None)
      && IsUp(Run(w, inputs, self), id) && Run(w, inputs, self).peers[id] == Online(shell, Hex(b), false, None, Some(30_000))
  {
    var w, shell := Load(map[], self), Profile(id, "unknown");
    RunExchange(w, self, id, a, b);
    var w1 := OnConnected(w, id, a);
    assert w1.peers[id] == Online(shell, Hex(a), false, None, None);
    var w2 := OnPair(w1, id, true, CALM);
    assert w2.peers[id] == Online(shell, Hex(a), false, None, Some(30_000));
  }

  lemma YesPins(w: World, self: Id, id: Id)
    requires InTime(w, id, 0)
    ensures Pin(Step(w, Input(PairingAnswer(id, true), CALM), self), id) == Some(w.peers[id].live)
  {
    TrustRuns.PinStep(w, Input(PairingAnswer(id, true), CALM), self, id);
  }

  /** The family where they differ: the device asks over one certificate, connects
      again over another before the user answers, and the other one is pinned. */
  lemma AnotherIsPinned(self: Id, id: Id, a: Digest, b: Digest)
    requires a != b
    ensures var w := Load(map[], self); var yes := Input(PairingAnswer(id, true), CALM); var inputs := Exchange(id, a, b);
      && Makes(Run(w, inputs[..1], self), inputs[1], id, ByPeer) && Live(Run(w, inputs[..1], self), id) == Hex(a)
      && Accepts(Run(w, inputs, self), yes, id, ByPeer)
      && Pin(Step(Run(w, inputs, self), yes, self), id) == Some(Hex(b)) != Some(Hex(a))
  {
    ExchangePeers(self, id, a, b);
    YesPins(Run(Load(map[], self), Exchange(id, a, b), self), self, id);
    if Hex(a) == Hex(b) {
      HexInjective(a, b);
    }
  }
}
