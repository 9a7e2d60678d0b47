/** A dialer and an acceptor, both honest, over byte channels that hold at most
    `cap` bytes in flight: every interleaving of partial writes and partial reads. */
module HandshakeRun {
  import opened Prelude
  import opened Handshake
  import Framing = PacketFraming

  /** The lines the two parties send, the identities in them, the capacity of a
      channel direction, and the JSON decoder. */
  datatype Config = Config(dPlain: Bytes, dSecure: Bytes, aSecure: Bytes, dId: Identity, aId: Identity, cap: nat, decode: Decoder)

  ghost predicate Honest(c: Config) {
    && c.cap >= 1
    && c.dId.deviceId != "" && c.aId.deviceId != ""
    && c.dPlain != [] && c.dPlain[0] == OPEN_BRACE && Framing.NoNewline(c.dPlain)
    && Framing.NoNewline(c.dSecure) && Framing.NoNewline(c.aSecure)
    && c.decode(c.dPlain) == c.decode(c.dSecure) == Announces(c.dId)
    && c.decode(c.aSecure) == Announces(c.aId)
  }

  /** The plaintext line stays below the packet cap, the secure lines within it. */
  predicate WithinLimits(c: Config) {
    |c.dPlain| < MAX_PACKET_LEN && |c.dSecure| <= MAX_PACKET_LEN && |c.aSecure| <= MAX_PACKET_LEN
  }

  /** At least one secure line, with its newline, fits a channel direction. */
  predicate RoomForOne(c: Config) {
    |c.dSecure| < c.cap || |c.aSecure| < c.cap
  }

  predicate Completes(c: Config) {
    WithinLimits(c) && RoomForOne(c)
  }

  /** The part a side plays in TLS, once it has begun. */
  datatype Role = Server | Client

  datatype Stage = Plain | Tls | Write | Read | Done(peer: Identity) | Failed

  datatype State = State(
    d: Stage, dRole: Option<Role>, dUnsent: Bytes, dGot: Bytes,
    a: Stage, aRole: Option<Role>, aUnsent: Bytes, aGot: Bytes, aPlain: Option<Identity>,
    raw: Bytes, toA: Bytes, toD: Bytes)

  function Init(c: Config): State {
    State(Plain, None, Framing.Encode(c.dPlain), [], Plain, None, [], [], None, [], [], [])
  }

  datatype Step =
    | DSend(n: nat) | DFlushed | DRecv(n: nat) | DGiveUp
    | AByte | ASend(n: nat) | AFlushed | ARecv(n: nat) | AGiveUp
    | TlsMeet

  // ---- the parties' code, one atomic step at a time -----------------------

  /** One turn of the plaintext read loop. */
  function PlainByte(c: Config, s: State): State
    requires s.raw != []
  {
    var b := s.raw[0];
    var s' := s.(raw := s.raw[1..]);
    if s.aGot == [] && b != OPEN_BRACE then s'.(a := Failed)
    else if |s.aGot| >= MAX_PACKET_LEN then s'.(a := Failed)
    else if b != NEWLINE then s'.(aGot := s.aGot + [b])
    else match c.decode(s.aGot)
      case Announces(identity) => s'.(a := Tls, aRole := Some(Client), aPlain := Some(identity))
      case _ => s'.(a := Failed)
  }

  /** TLS fails on leftovers of the plaintext stage; behind it each side encodes its
      secure identity, which may be too long. */
  function Meet(c: Config, s: State): State {
    if s.raw != [] then
      s.(d := Failed, a := Failed)
    else
      s.(d := if |c.dSecure| <= MAX_PACKET_LEN then Write else Failed,
         dUnsent := Framing.Encode(c.dSecure),
         a := if |c.aSecure| <= MAX_PACKET_LEN then Write else Failed,
         aUnsent := Framing.Encode(c.aSecure),
         aGot := [])
  }

  /** The stage of a party that has received `got` in the secure exchange. */
  function AfterReceive(c: Config, got: Bytes, plain: Option<Identity>): Stage {
    match Framing.SplitLine(got, false)
    case Line(text, _) =>
      (match c.decode(text)
       case Announces(identity) =>
         if identity.deviceId == "" then Failed
         else if plain.Some? && CrossCheck(plain.value, identity).Err? then Failed
         else Done(identity)
       case _ => Failed)
    case Failed(error) => if error == Framing.TooLong then Failed else Read
  }

  function Final(stage: Stage): bool {
    stage.Done? || stage.Failed?
  }

  function Next(c: Config, s: State, step: Step): Option<State> {
    match step
    case DSend(n) =>
      if !(1 <= n <= |s.dUnsent|) then None
      else if s.d == Plain && |s.raw| + n <= c.cap then
        Some(s.(raw := s.raw + s.dUnsent[..n], dUnsent := s.dUnsent[n..]))
      else if s.d == Write && |s.toA| + n <= c.cap then
        Some(s.(toA := s.toA + s.dUnsent[..n], dUnsent := s.dUnsent[n..]))
      else None
    case DFlushed =>
      if s.dUnsent != [] then None
      else if s.d == Plain then Some(s.(d := Tls, dRole := Some(Server)))
      else if s.d == Write then Some(s.(d := Read))
      else None
    case DRecv(n) =>
      if s.d != Read || !(1 <= n <= |s.toD|) then None
      else
        var got := s.dGot + s.toD[..n];
        Some(s.(toD := s.toD[n..], dGot := got, d := AfterReceive(c, got, None)))
    case AByte =>
      if s.a != Plain || s.raw == [] then None else Some(PlainByte(c, s))
    case ASend(n) =>
      if s.a != Write || !(1 <= n <= |s.aUnsent|) || |s.toD| + n > c.cap then None
      else Some(s.(toD := s.toD + s.aUnsent[..n], aUnsent := s.aUnsent[n..]))
    case AFlushed =>
      if s.a != Write || s.aUnsent != [] then None else Some(s.(a := Read))
    case ARecv(n) =>
      if s.a != Read || !(1 <= n <= |s.toA|) then None
      else
        var got := s.aGot + s.toA[..n];
        Some(s.(toA := s.toA[n..], aGot := got, a := AfterReceive(c, got, s.aPlain)))
    case TlsMeet =>
      // two servers, or two clients, would wait for each other for ever
      if s.d != Tls || s.a != Tls || s.dRole == s.aRole then None else Some(Meet(c, s))
    case DGiveUp =>
      if !s.a.Failed? || Final(s.d) then None else Some(s.(d := Failed))
    case AGiveUp =>
      if !s.d.Failed? || Final(s.a) then None else Some(s.(a := Failed))
  }

  /** The state after a whole run, when every step of it was enabled. */
  function Run(c: Config, steps: seq<Step>): Option<State> {
    if steps == [] then Some(Init(c))
    else match Run(c, steps[..|steps| - 1])
      case None => None
      case Some(s) => Next(c, s, steps[|steps| - 1])
  }

  ghost predicate Stuck(c: Config, s: State) {
    forall step :: Next(c, s, step) == None
  }

  predicate Agreed(c: Config, s: State) {
    s.d == Done(c.aId) && s.a == Done(c.dId) && s.dRole == Some(Server) && s.aRole == Some(Client)
  }

  /** Each side has bytes left to write and the other does not read. */
  predicate Deadlocked(s: State) {
    s.d == Write && s.a == Write && s.dUnsent != [] && s.aUnsent != []
  }

  predicate BothFailed(s: State) {
    s.d.Failed? && s.a.Failed?
  }

  // ---- the invariant ------------------------------------------------------

  /** Someone gave up: only ever over a line that is too long. */
  predicate Broken(c: Config, s: State) {
    && (s.d.Failed? || s.a.Failed?) && !s.d.Done? && !s.a.Done? && !WithinLimits(c)
    && (s.d.Failed? || s.toD == []) && (s.a.Failed? || s.toA == [])
  }

  /** Stage 1: nothing of the plaintext line is lost, duplicated or reordered. */
  predicate InPlain(c: Config, s: State) {
    && s.a == Plain && (s.d == Plain || (s.d == Tls && s.dUnsent == [] && s.dRole == Some(Server)))
    && s.aGot + s.raw + s.dUnsent == Framing.Encode(c.dPlain)
    && |s.aGot| <= |c.dPlain| && |s.aGot| <= MAX_PACKET_LEN
    && s.toA == [] && s.toD == [] && s.dGot == [] && s.aUnsent == []
  }

  /** Stage 2: the acceptor took exactly the line. */
  predicate InTls(c: Config, s: State) {
    && s.a == Tls && s.aRole == Some(Client) && (s.d == Plain || (s.d == Tls && s.dRole == Some(Server)))
    && s.aPlain == Some(c.dId) && |c.dPlain| < MAX_PACKET_LEN
    && s.raw == [] && s.dUnsent == []
    && s.toA == [] && s.toD == [] && s.dGot == [] && s.aUnsent == []
  }

  /** One direction of stage 3, from a sender in `from` to a receiver in `to`. */
  predicate Direction(c: Config, line: Bytes, id: Identity, from: Stage, unsent: Bytes, chan: Bytes, to: Stage, got: Bytes) {
    && got + chan + unsent == Framing.Encode(line)
    && |chan| <= c.cap
    && (from == Write || from == Read || from.Done?)
    && (from != Write ==> unsent == [])
    && (to == Write ==> got == [])
    && (to == Read ==> |got| <= |line|)
    && (to.Done? ==> to == Done(id) && chan == [] && unsent == [])
  }

  predicate InSecure(c: Config, s: State) {
    && Direction(c, c.dSecure, c.dId, s.d, s.dUnsent, s.toA, s.a, s.aGot)
    && Direction(c, c.aSecure, c.aId, s.a, s.aUnsent, s.toD, s.d, s.dGot)
    && s.aPlain == Some(c.dId) && s.raw == []
    && s.dRole == Some(Server) && s.aRole == Some(Client) && WithinLimits(c)
    && (s.d != Write || s.a != Write ==> RoomForOne(c))
  }

  predicate Inv(c: Config, s: State) {
    Broken(c, s) || InPlain(c, s) || InTls(c, s) || InSecure(c, s)
  }

  // ---- the measure --------------------------------------------------------

  function StageCost(stage: Stage, w: nat): nat {
    match stage
    case Plain => 4 * w
    case Tls => 3 * w
    case Write => 2 * w
    case Read => w
    case _ => 0
  }

  function Measure(c: Config, s: State): nat {
    var w := 2 * (|c.dSecure| + |c.aSecure|) + 5;
    StageCost(s.d, w) + StageCost(s.a, w) + 2 * (|s.dUnsent| + |s.aUnsent|) + |s.raw| + |s.toA| + |s.toD|
  }

  lemma StepDecreases(c: Config, s: State, step: Step)
    requires Next(c, s, step).Some?
    ensures Measure(c, Next(c, s, step).value) < Measure(c, s)
  {
  }

  // ---- every step keeps the invariant ------------------------------------

  lemma BrokenStays(c: Config, s: State, step: Step)
    requires Broken(c, s) && Next(c, s, step).Some?
    ensures Broken(c, Next(c, s, step).value)
  {
  }

  lemma PlainByteStep(c: Config, s: State)
    requires Honest(c) && InPlain(c, s) && s.raw != []
    ensures Inv(c, PlainByte(c, s))
  {
    var line, b := Framing.Encode(c.dPlain), s.raw[0];
    assert line[|s.aGot|] == b && s.aGot == line[..|s.aGot|];
    assert (s.aGot + [b]) + s.raw[1..] + s.dUnsent == line;
    if b == NEWLINE {
      assert |s.aGot| == |c.dPlain| && s.aGot == c.dPlain;
    }
  }

  lemma PlainStep(c: Config, s: State, step: Step)
    requires Honest(c) && InPlain(c, s) && Next(c, s, step).Some?
    ensures Inv(c, Next(c, s, step).value)
  {
    var s' := Next(c, s, step).value;
    match step {
      case DSend(n) =>
        assert s'.aGot + s'.raw + s'.dUnsent == s.aGot + s.raw + s.dUnsent;
        assert InPlain(c, s');
      case AByte => PlainByteStep(c, s);
      case _ =>
    }
  }

  lemma TlsStep(c: Config, s: State, step: Step)
    requires Honest(c) && InTls(c, s) && Next(c, s, step).Some?
    ensures Inv(c, Next(c, s, step).value)
  {
  }

  /** A receiver that holds a prefix of the line is done exactly at its end. */
  lemma ReceivePrefix(c: Config, line: Bytes, id: Identity, got: Bytes, rest: Bytes, plain: Option<Identity>)
    requires Framing.NoNewline(line) && |line| <= MAX_PACKET_LEN
    requires c.decode(line) == Announces(id) && id.deviceId != ""
    requires plain == None || plain == Some(id)
    requires got + rest == Framing.Encode(line)
    ensures AfterReceive(c, got, plain) == if rest == [] then Done(id) else Read
  {
    if rest == [] {
      assert got == Framing.Encode(line) + [];
      Framing.FrameRoundTrip(line, [], false);
    } else {
      assert forall k :: 0 <= k < |got| ==> got[k] == (got + rest)[k] == line[k];
    }
  }

  lemma SendStep(c: Config, line: Bytes, id: Identity, unsent: Bytes, chan: Bytes, to: Stage, got: Bytes, n: nat)
    requires Direction(c, line, id, Write, unsent, chan, to, got)
    requires 1 <= n <= |unsent| && |chan| + n <= c.cap
    ensures Direction(c, line, id, Write, unsent[n..], chan + unsent[..n], to, got)
  {
    assert got + (chan + unsent[..n]) + unsent[n..] == got + chan + unsent;
  }

  lemma ReceiveStep(c: Config, line: Bytes, id: Identity, from: Stage, unsent: Bytes, chan: Bytes, got: Bytes, n: nat, plain: Option<Identity>)
    requires Framing.NoNewline(line) && |line| <= MAX_PACKET_LEN
    requires c.decode(line) == Announces(id) && id.deviceId != ""
    requires plain == None || plain == Some(id)
    requires Direction(c, line, id, from, unsent, chan, Read, got) && 1 <= n <= |chan|
    ensures var got' := got + chan[..n];
            var to' := AfterReceive(c, got', plain);
            && (to' == Read || to' == Done(id))
            && Direction(c, line, id, from, unsent, chan[n..], to', got')
  {
    var got' := got + chan[..n];
    assert got' + (chan[n..] + unsent) == got + chan + unsent;
    assert got' + chan[n..] + unsent == got + chan + unsent;
    ReceivePrefix(c, line, id, got', chan[n..] + unsent, plain);
  }

  lemma SecureStep(c: Config, s: State, step: Step)
    requires Honest(c) && InSecure(c, s) && Next(c, s, step).Some?
    ensures InSecure(c, Next(c, s, step).value)
  {
    match step {
      case DSend(n) => SendStep(c, c.dSecure, c.dId, s.dUnsent, s.toA, s.a, s.aGot, n);
      case ASend(n) => SendStep(c, c.aSecure, c.aId, s.aUnsent, s.toD, s.d, s.dGot, n);
      case DRecv(n) => ReceiveStep(c, c.aSecure, c.aId, s.a, s.aUnsent, s.toD, s.dGot, n, None);
      case ARecv(n) => ReceiveStep(c, c.dSecure, c.dId, s.d, s.dUnsent, s.toA, s.aGot, n, s.aPlain);
      case _ =>
    }
  }

  lemma StepKeepsInv(c: Config, s: State, step: Step)
    requires Honest(c) && Inv(c, s) && Next(c, s, step).Some?
    ensures Inv(c, Next(c, s, step).value)
  {
    if Broken(c, s) {
      BrokenStays(c, s, step);
    } else if InPlain(c, s) {
      PlainStep(c, s, step);
    } else if InTls(c, s) {
      TlsStep(c, s, step);
    } else {
      SecureStep(c, s, step);
    }
  }

  lemma {:induction false} RunKeepsInv(c: Config, steps: seq<Step>)
    requires Honest(c) && Run(c, steps).Some?
    ensures Inv(c, Run(c, steps).value)
    ensures |steps| + Measure(c, Run(c, steps).value) <= Measure(c, Init(c))
  {
    if steps != [] {
      var before := Run(c, steps[..|steps| - 1]).value;
      RunKeepsInv(c, steps[..|steps| - 1]);
      StepKeepsInv(c, before, steps[|steps| - 1]);
      StepDecreases(c, before, steps[|steps| - 1]);
    }
  }

  // ---- progress -----------------------------------------------------------

  /** A step that an unfinished pair can always take. */
  function Pick(c: Config, s: State): Step {
    if s.a == Plain then
      if s.raw != [] then AByte else DSend(1)
    else if s.a == Tls then
      if s.d == Plain then DFlushed else TlsMeet
    else if s.d == Write && s.dUnsent == [] then DFlushed
    else if s.a == Write && s.aUnsent == [] then AFlushed
    else if s.d == Write && |s.toA| < c.cap then DSend(1)
    else if s.a == Write && |s.toD| < c.cap then ASend(1)
    else if s.d == Read && s.toD != [] then DRecv(1)
    else ARecv(1)
  }

  lemma Progress(c: Config, s: State)
    requires Honest(c) && Inv(c, s) && Completes(c) && !Agreed(c, s)
    ensures Next(c, s, Pick(c, s)).Some?
  {
    if InPlain(c, s) && s.raw == [] && s.dUnsent == [] {
      assert false;
    }
    if InSecure(c, s) {
      SecureProgress(c, s);
    }
  }

  lemma SecureProgress(c: Config, s: State)
    requires Honest(c) && InSecure(c, s) && Completes(c) && !Agreed(c, s)
    ensures Next(c, s, Pick(c, s)).Some?
  {
    if s.d == Read {
      assert |s.dGot + s.toD + s.aUnsent| == |c.aSecure| + 1;
    }
    if s.a == Read {
      assert |s.aGot + s.toA + s.dUnsent| == |c.dSecure| + 1;
    }
    if s.d == Write && s.a == Write {
      assert |s.aGot + s.toA + s.dUnsent| == |c.dSecure| + 1;
      assert |s.dGot + s.toD + s.aUnsent| == |c.aSecure| + 1;
    }
  }

  // ---- the theorem --------------------------------------------------------

  lemma StopsBlocked(c: Config, s: State)
    requires Honest(c) && InSecure(c, s) && Stuck(c, s) && !RoomForOne(c)
    ensures Deadlocked(s)
  {
    assert s.d == Write && s.a == Write;
    assert Next(c, s, DFlushed) == None && Next(c, s, AFlushed) == None;
  }

  lemma StopsFailed(c: Config, s: State)
    requires Broken(c, s) && Stuck(c, s)
    ensures BothFailed(s)
  {
    assert Next(c, s, DGiveUp) == None && Next(c, s, AGiveUp) == None;
  }

  /** The first two stages always have a step left. */
  lemma EarlyStagesMove(c: Config, s: State)
    requires Honest(c) && (InPlain(c, s) || InTls(c, s))
    ensures !Stuck(c, s)
  {
    if InPlain(c, s) && s.raw != [] {
      assert Next(c, s, AByte).Some?;
    } else if s.dUnsent != [] {
      assert Next(c, s, DSend(1)).Some?;
    } else if s.d == Plain {
      assert Next(c, s, DFlushed).Some?;
    } else {
      assert InTls(c, s);
      assert Next(c, s, TlsMeet).Some?;
    }
  }

  /** Whatever the interleaving, the handshake stops after boundedly many steps. It
      stops in mutual agreement, under opposite TLS roles, exactly when the lines are
      within the limits and one secure line fits its channel; in a deadlock exactly
      when they are within the limits and neither fits; and in failure otherwise. */
  lemma Outcome(c: Config, steps: seq<Step>)
    requires Honest(c) && Run(c, steps).Some?
    ensures |steps| <= Measure(c, Init(c))
    ensures var s := Run(c, steps).value;
      Stuck(c, s) ==>
        && (Agreed(c, s) <==> WithinLimits(c) && RoomForOne(c))
        && (Deadlocked(s) <==> WithinLimits(c) && !RoomForOne(c))
        && (BothFailed(s) <==> !WithinLimits(c))
    ensures Agreed(c, Run(c, steps).value) ==> Run(c, steps).value.aPlain == Some(c.dId)
  {
    var s := Run(c, steps).value;
    RunKeepsInv(c, steps);
    if Stuck(c, s) {
      if Broken(c, s) {
        StopsFailed(c, s);
      } else if InSecure(c, s) {
        if !RoomForOne(c) {
          StopsBlocked(c, s);
        } else if !Agreed(c, s) {
          Progress(c, s);
        }
      } else {
        EarlyStagesMove(c, s);
      }
    }
  }

  /** Every run can be carried on to a stop. */
  lemma {:induction false} Stops(c: Config, steps: seq<Step>) returns (all: seq<Step>)
    requires Honest(c) && Run(c, steps).Some?
    ensures steps <= all && Run(c, all).Some? && Stuck(c, Run(c, all).value)
    decreases Measure(c, Run(c, steps).value)
  {
    var s := Run(c, steps).value;
    if Stuck(c, s) {
      all := steps;
    } else {
      var step :| Next(c, s, step).Some?;
      assert (steps + [step])[..|steps|] == steps;
      StepDecreases(c, s, step);
      all := Stops(c, steps + [step]);
    }
  }

  /** The documented claim that writing first on both sides can never deadlock is
      false exactly when neither secure line fits the channel: then every run that is
      within the limits can be carried on to a deadlock, and to nothing else. */
  lemma BothBlock(c: Config, steps: seq<Step>) returns (all: seq<Step>)
    requires Honest(c) && WithinLimits(c) && !RoomForOne(c) && Run(c, steps).Some?
    ensures steps <= all && Run(c, all).Some?
    ensures Stuck(c, Run(c, all).value) && Deadlocked(Run(c, all).value)
  {
    all := Stops(c, steps);
    Outcome(c, all);
  }

  function Tiny(): Config {
    var id := Identity("id", 8);
    Config([OPEN_BRACE], [OPEN_BRACE], [OPEN_BRACE], id, id, 1, _ => Announces(id))
  }

  /** And there is such a pair: lines of one byte over channels of one byte. */
  lemma DeadlockExists() returns (steps: seq<Step>)
    ensures Honest(Tiny()) && Run(Tiny(), steps).Some?
    ensures Stuck(Tiny(), Run(Tiny(), steps).value) && Deadlocked(Run(Tiny(), steps).value)
  {
    steps := BothBlock(Tiny(), []);
  }
}
