/** What the device manager promises about trust (crates/daemon/src/device.rs),
    as a machine in which the promises are structural: a connected peer is
    trusted or not, and its pin IS the fingerprint of its live connection; only
    a connected peer can have a pairing asked of it or parked for the user. The
    module DeviceManager proves that the actor's own fields behave like this. */
module Trust {
  import opened Prelude

  type Id = string
  type Fingerprint = string
  type Time = nat

  /** How long a parked incoming request waits for the user, in milliseconds. */
  const INCOMING_PAIR_TIMEOUT: Time := 30_000

  /** SHA-256 of a peer certificate. */
  type Digest = d: Bytes | |d| == 32 witness seq(32, _ => 0)

  datatype Profile = Profile(name: string, kind: string)

  datatype Peer =
    | Offline(profile: Profile, pin: Option<Fingerprint>)
    | Online(profile: Profile, live: Fingerprint, trusted: bool, asked: Option<nat>, parked: Option<Time>)

  datatype Row = Row(profile: Profile, fingerprint: string, paired: bool, lastSeen: Time)

  /** Why a pair packet went out. */
  datatype Why = Request | AutoAccept | Answer | Expired | Revoke

  datatype Sent = Sent(to: Id, pair: bool, why: Why)

  datatype Label = IsOnline | IsOffline | IsPaired | IsUnpaired

  datatype Event =
    | DeviceFound(id: Id, name: string)
    | StateChanged(id: Id, state: Label)
    | PairingRequested(id: Id, name: string)
    | CertMismatch(id: Id)

  /** How a StartPairing caller's reply channel was resolved; `Dropped` is the
      channel being dropped unanswered. */
  datatype Outcome = Decided(pair: bool) | UnknownDevice | NotConnected | AlreadyPaired | SendFailed | ConnectionClosed | Dropped

  datatype Resolved = Resolved(reply: nat, outcome: Outcome)

  /** `rows` is the database and outlives the process; the rest is one process:
      its device table, the pair packets queued for peers, the event bus, the
      resolved pairing replies and the number of StartPairing calls so far. */
  datatype World = World(
    peers: map<Id, Peer>, rows: map<Id, Row>,
    sent: seq<Sent>, bus: seq<Event>, answers: seq<Resolved>, issued: nat)

  datatype Command =
    | Announce(id: Id, profile: Profile)
    | Connected(id: Id, digest: Digest)
    | IdentityFrom(id: Id, profile: Profile)
    | PairFrom(id: Id, pair: Option<bool>)
    | ConnClosed(id: Id)
    | StartPairing(id: Id)
    | PairingAnswer(id: Id, accept: bool)
    | PairingTimeout(id: Id)
    | Unpair(id: Id)
    | Restart

  /** What a command meets: the clock, room in the peer's outbound queue, whether
      the database write succeeds, and the `pairing.auto_accept` setting. */
  datatype Env = Env(now: Time, room: bool, saved: bool, autoAccept: bool)

  datatype Input = Input(cmd: Command, env: Env)

  // ---- fingerprints as text -----------------------------------------------

  const HEX_DIGITS: seq<char> := "0123456789abcdef"

  function HexByte(b: byte): string {
    [HEX_DIGITS[b as int / 16], HEX_DIGITS[b as int % 16]]
  }

  function Hex(bytes: Bytes): (s: string)
    ensures |s| == 2 * |bytes|
  {
    if bytes == [] then "" else HexByte(bytes[0]) + Hex(bytes[1..])
  }

  lemma HexByteInjective(a: byte, b: byte)
    requires HexByte(a) == HexByte(b)
    ensures a == b
  {
    var i, j := a as int / 16, b as int / 16;
    assert HEX_DIGITS[i] == HexByte(a)[0] == HexByte(b)[0] == HEX_DIGITS[j];
    assert i == j;
    var k, l := a as int % 16, b as int % 16;
    assert HEX_DIGITS[k] == HexByte(a)[1] == HexByte(b)[1] == HEX_DIGITS[l];
    assert k == l;
  }

  /** Comparing fingerprints as text is comparing certificates' digests. */
  lemma {:induction false} HexInjective(a: Bytes, b: Bytes)
    requires Hex(a) == Hex(b)
    ensures a == b
  {
    if a != [] {
      assert |Hex(a)| == 2 * |a| && |Hex(b)| == 2 * |b|;
      assert HexByte(a[0]) == Hex(a)[..2] && HexByte(b[0]) == Hex(b)[..2];
      assert Hex(a[1..]) == Hex(a)[2..] && Hex(b[1..]) == Hex(b)[2..];
      HexByteInjective(a[0], b[0]);
      HexInjective(a[1..], b[1..]);
      assert a == [a[0]] + a[1..] && b == [b[0]] + b[1..];
    }
  }

  // ---- observations -------------------------------------------------------

  function PeerPin(p: Peer): Option<Fingerprint> {
    match p
    case Offline(_, pin) => pin
    case Online(_, live, trusted, _, _) => if trusted then Some(live) else None
  }

  function Pin(w: World, id: Id): Option<Fingerprint> {
    if id in w.peers then PeerPin(w.peers[id]) else None
  }

  predicate IsUp(w: World, id: Id) {
    id in w.peers && w.peers[id].Online?
  }

  predicate Asked(w: World, id: Id) {
    IsUp(w, id) && w.peers[id].asked.Some?
  }

  predicate Parked(w: World, id: Id) {
    IsUp(w, id) && w.peers[id].parked.Some?
  }

  /** A request is parked and its deadline has not passed. */
  predicate InTime(w: World, id: Id, now: Time) {
    Parked(w, id) && now <= w.peers[id].parked.value
  }

  /** The pin that a reload would restore for `id`. */
  function RowPin(rows: map<Id, Row>, id: Id): Option<Fingerprint> {
    if id in rows && rows[id].paired then Some(rows[id].fingerprint) else None
  }

  // ---- the machine --------------------------------------------------------

  function Put(w: World, id: Id, p: Peer): World {
    w.(peers := w.peers[id := p])
  }

  function Publish(w: World, e: Event): World {
    w.(bus := w.bus + [e])
  }

  function Resolve(w: World, reply: Option<nat>, outcome: Outcome): World {
    if reply.Some? then w.(answers := w.answers + [Resolved(reply.value, outcome)]) else w
  }

  function Send(w: World, id: Id, pair: bool, why: Why, room: bool): World {
    if IsUp(w, id) && room then w.(sent := w.sent + [Sent(id, pair, why)]) else w
  }

  function Save(w: World, id: Id, row: Row, saved: bool): World {
    if saved then w.(rows := w.rows[id := row]) else w
  }

  /** Pin the live certificate of a connected peer. */
  function Grant(w: World, id: Id, env: Env): World
    requires IsUp(w, id)
  {
    var p := w.peers[id];
    var w1 := Put(w, id, p.(trusted := true));
    var w2 := Save(w1, id, Row(p.profile, p.live, true, env.now), env.saved);
    Publish(w2, StateChanged(id, IsPaired))
  }

  /** Forget the pin of a known peer, connected or not. */
  function Withdraw(w: World, id: Id, env: Env): World {
    if id !in w.peers then w
    else
      var p := w.peers[id];
      var w1 := Put(w, id, if p.Online? then p.(trusted := false) else p.(pin := None));
      var w2 := Save(w1, id, Row(p.profile, "", false, env.now), env.saved);
      Publish(w2, StateChanged(id, IsUnpaired))
  }

  function Unpark(w: World, id: Id): World {
    if Parked(w, id) then Put(w, id, w.peers[id].(parked := None)) else w
  }

  function OnAnnounce(w: World, id: Id, profile: Profile): World {
    if id in w.peers then Put(w, id, w.peers[id].(profile := profile))
    else Publish(Put(w, id, Offline(profile, None)), DeviceFound(id, profile.name))
  }

  function OnConnected(w: World, id: Id, digest: Digest): World {
    var live := Hex(digest);
    if id !in w.peers then
      Publish(Put(w, id, Online(Profile(id, "unknown"), live, false, None, None)), DeviceFound(id, "unknown"))
    else if Pin(w, id).Some? && Pin(w, id).value != live then
      Publish(w, CertMismatch(id))
    else
      var p := match w.peers[id]
        case Offline(profile, pin) => Online(profile, live, pin.Some?, None, None)
        case Online(profile, _, trusted, asked, parked) => Online(profile, live, trusted, asked, parked);
      Publish(Put(w, id, p), StateChanged(id, IsOnline))
  }

  function OnIdentity(w: World, id: Id, profile: Profile): World {
    if id in w.peers then Put(w, id, w.peers[id].(profile := profile)) else w
  }

  function OnPair(w: World, id: Id, pair: bool, env: Env): World {
    if Asked(w, id) then
      var w1 := Resolve(Put(w, id, w.peers[id].(asked := None)), w.peers[id].asked, Decided(pair));
      if pair then Grant(w1, id, env) else w1
    else if !pair then
      Publish(Withdraw(Unpark(w, id), id, env), StateChanged(id, IsUnpaired))
    else if !IsUp(w, id) then
      w
    else if env.autoAccept then
      Send(Grant(w, id, env), id, true, AutoAccept, env.room)
    else
      var p := w.peers[id];
      Publish(Put(w, id, p.(parked := Some(env.now + INCOMING_PAIR_TIMEOUT))), PairingRequested(id, p.profile.name))
  }

  function OnClosed(w: World, id: Id): World {
    var w1 :=
      if IsUp(w, id) then
        Resolve(Put(w, id, Offline(w.peers[id].profile, Pin(w, id))), w.peers[id].asked, ConnectionClosed)
      else w;
    Publish(w1, StateChanged(id, IsOffline))
  }

  /** Ask a connected, untrusted peer; an earlier caller still waiting is dropped. */
  function Ask(w: World, id: Id, reply: nat, room: bool): World
    requires IsUp(w, id)
  {
    var p := w.peers[id];
    var w1 := Resolve(w, p.asked, Dropped);
    if room then
      Send(Put(w1, id, p.(asked := Some(reply))), id, true, Request, true)
    else
      Resolve(Put(w1, id, p.(asked := None)), Some(reply), SendFailed)
  }

  function OnStartPairing(w: World, id: Id, env: Env): World {
    var w1 := w.(issued := w.issued + 1);
    if id !in w.peers then Resolve(w1, Some(w.issued), UnknownDevice)
    else if !IsUp(w, id) then Resolve(w1, Some(w.issued), NotConnected)
    else if w.peers[id].trusted then Resolve(w1, Some(w.issued), AlreadyPaired)
    else Ask(w1, id, w.issued, env.room)
  }

  datatype Reply = Done | NoPending | TooLate

  /** What the user's answer is told. */
  function AnswerReply(w: World, id: Id, env: Env): Reply {
    if !Parked(w, id) then NoPending
    else if env.now > w.peers[id].parked.value then TooLate
    else Done
  }

  function OnAnswer(w: World, id: Id, accept: bool, env: Env): World {
    var w1 := Unpark(w, id);
    if AnswerReply(w, id, env) != Done then w1
    else
      var w2 := if accept then Grant(w1, id, env) else w1;
      Publish(Send(w2, id, accept, Answer, env.room), StateChanged(id, if accept then IsPaired else IsUnpaired))
  }

  function OnTimeout(w: World, id: Id, env: Env): World {
    if Parked(w, id) then Send(Unpark(w, id), id, false, Expired, env.room) else w
  }

  function OnUnpair(w: World, id: Id, env: Env): World {
    Withdraw(Send(w, id, false, Revoke, env.room), id, env)
  }

  /** A new process over the same database; our own row is skipped. */
  function Load(rows: map<Id, Row>, self: Id): World {
    World(map id | id in rows && id != self :: Offline(rows[id].profile, RowPin(rows, id)), rows, [], [], [], 0)
  }

  function Step(w: World, input: Input, self: Id): World {
    match input.cmd
    case Announce(id, profile) => OnAnnounce(w, id, profile)
    case Connected(id, digest) => OnConnected(w, id, digest)
    case IdentityFrom(id, profile) => OnIdentity(w, id, profile)
    case PairFrom(id, pair) => if pair.Some? then OnPair(w, id, pair.value, input.env) else w
    case ConnClosed(id) => OnClosed(w, id)
    case StartPairing(id) => OnStartPairing(w, id, input.env)
    case PairingAnswer(id, accept) => OnAnswer(w, id, accept, input.env)
    case PairingTimeout(id) => OnTimeout(w, id, input.env)
    case Unpair(id) => OnUnpair(w, id, input.env)
    case Restart => Load(w.rows, self)
  }

  function Run(w: World, inputs: seq<Input>, self: Id): World
    decreases |inputs|
  {
    if inputs == [] then w
    else Step(Run(w, inputs[..|inputs| - 1], self), inputs[|inputs| - 1], self)
  }
}
