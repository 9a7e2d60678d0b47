/** The trust machine seen by observable instead of by handler: for each thing one
    can observe of it, which commands change it and to what, all others leaving it
    alone. `TrustRuns.PinStep` is the law of the pins. */
module TrustLaws {
  import opened Prelude
  import opened Trust
  import TrustRuns

  // ---- who is known and who is connected ------------------------------------------

  /** A connection attempt gets through: nothing is pinned, or just that certificate. */
  predicate Welcome(w: World, id: Id, digest: Digest) {
    Pin(w, id) == None || Pin(w, id) == Some(Hex(digest))
  }

  predicate UpAfter(w: World, input: Input, id: Id) {
    match input.cmd
    case Connected(i, digest) => IsUp(w, id) || (i == id && Welcome(w, id, digest))
    case ConnClosed(i) => IsUp(w, id) && i != id
    case Restart => false
    case _ => IsUp(w, id)
  }

  function ProfileOf(w: World, id: Id): Option<Profile> {
    if id in w.peers then Some(w.peers[id].profile) else None
  }

  /** Identities come from announcements and identity packets alone; a device met
      first by its connection is a shell named after its id. */
  function ProfileAfter(w: World, input: Input, self: Id, id: Id): Option<Profile> {
    match input.cmd
    case Announce(i, profile) => if i == id then Some(profile) else ProfileOf(w, id)
    case IdentityFrom(i, profile) => if i == id && id in w.peers then Some(profile) else ProfileOf(w, id)
    case Connected(i, _) => if i == id && id !in w.peers then Some(Profile(id, "unknown")) else ProfileOf(w, id)
    case Restart => if id in w.rows && id != self then Some(w.rows[id].profile) else None
    case _ => ProfileOf(w, id)
  }

  /** Nobody comes or goes, and nobody is renamed. */
  predicate SameWho(w: World, w': World, id: Id) {
    ProfileOf(w', id) == ProfileOf(w, id) && (IsUp(w', id) <==> IsUp(w, id))
  }

  lemma WhoPair(w: World, from: Id, pair: bool, env: Env, id: Id)
    ensures SameWho(w, OnPair(w, from, pair, env), id)
  {
  }

  lemma WhoAnswer(w: World, from: Id, accept: bool, env: Env, id: Id)
    ensures SameWho(w, OnAnswer(w, from, accept, env), id)
  {
  }

  lemma WhoStart(w: World, from: Id, env: Env, id: Id)
    ensures SameWho(w, OnStartPairing(w, from, env), id)
  {
  }

  lemma WhoTimeout(w: World, from: Id, env: Env, id: Id)
    ensures SameWho(w, OnTimeout(w, from, env), id)
  {
  }

  lemma WhoUnpair(w: World, from: Id, env: Env, id: Id)
    ensures SameWho(w, OnUnpair(w, from, env), id)
  {
  }

  predicate OfPairing(cmd: Command) {
    cmd.PairFrom? || cmd.PairingAnswer? || cmd.StartPairing? || cmd.PairingTimeout? || cmd.Unpair?
  }

  lemma WhoPairing(w: World, input: Input, self: Id, id: Id)
    requires OfPairing(input.cmd)
    ensures SameWho(w, Step(w, input, self), id)
  {
    var cmd, env := input.cmd, input.env;
    if cmd.PairFrom? {
      if cmd.pair.Some? {
        WhoPair(w, cmd.id, cmd.pair.value, env, id);
      }
    } else if cmd.PairingAnswer? {
      WhoAnswer(w, cmd.id, cmd.accept, env, id);
    } else if cmd.StartPairing? {
      WhoStart(w, cmd.id, env, id);
    } else if cmd.PairingTimeout? {
      WhoTimeout(w, cmd.id, env, id);
    } else {
      WhoUnpair(w, cmd.id, env, id);
    }
  }

  lemma UpLaw(w: World, input: Input, self: Id, id: Id)
    ensures IsUp(Step(w, input, self), id) <==> UpAfter(w, input, id)
  {
    if OfPairing(input.cmd) {
      WhoPairing(w, input, self, id);
    }
  }

  lemma ProfileLaw(w: World, input: Input, self: Id, id: Id)
    ensures ProfileOf(Step(w, input, self), id) == ProfileAfter(w, input, self, id)
  {
    if OfPairing(input.cmd) {
      WhoPairing(w, input, self, id);
    }
  }

  /** A new process knows the stored devices but itself, all offline, with the pins of
      the paired ones, and has said and promised nothing. */
  lemma LoadLaw(rows: map<Id, Row>, self: Id, id: Id)
    ensures var w := Load(rows, self);
      && (id in w.peers <==> id in rows && id != self)
      && (id in w.peers ==> w.peers[id] == Offline(rows[id].profile, if rows[id].paired then Some(rows[id].fingerprint) else None))
      && w.rows == rows && w.sent == [] && w.bus == [] && w.answers == [] && w.issued == 0
  {
  }

  // ---- open requests -----------------------------------------------------------------

  function AskedOf(w: World, id: Id): Option<nat> {
    if IsUp(w, id) then w.peers[id].asked else None
  }

  /** We ask a connected, unpaired device we can reach; any pair packet, a close and a
      restart end it. */
  function AskedAfter(w: World, input: Input, id: Id): Option<nat> {
    match input.cmd
    case StartPairing(i) =>
      if i == id && IsUp(w, id) && Pin(w, id) == None then (if input.env.room then Some(w.issued) else None)
      else AskedOf(w, id)
    case PairFrom(i, pair) => if i == id && pair.Some? then None else AskedOf(w, id)
    case ConnClosed(i) => if i == id then None else AskedOf(w, id)
    case Restart => None
    case _ => AskedOf(w, id)
  }

  lemma AskedPair(w: World, from: Id, pair: bool, env: Env, id: Id)
    ensures AskedOf(OnPair(w, from, pair, env), id) == if from == id then None else AskedOf(w, id)
  {
  }

  lemma AskedStart(w: World, from: Id, env: Env, id: Id)
    ensures AskedOf(OnStartPairing(w, from, env), id) == AskedAfter(w, Input(StartPairing(from), env), id)
  {
  }

  lemma AskedAnswer(w: World, from: Id, accept: bool, env: Env, id: Id)
    ensures AskedOf(OnAnswer(w, from, accept, env), id) == AskedOf(w, id)
  {
  }

  lemma AskedLaw(w: World, input: Input, self: Id, id: Id)
    ensures AskedOf(Step(w, input, self), id) == AskedAfter(w, input, id)
  {
    match input.cmd {
      case PairFrom(from, pair) => if pair.Some? { AskedPair(w, from, pair.value, input.env, id); }
      case StartPairing(from) => AskedStart(w, from, input.env, id);
      case PairingAnswer(from, accept) => AskedAnswer(w, from, accept, input.env, id);
      case _ =>
    }
  }

  function ParkedOf(w: World, id: Id): Option<Time> {
    if IsUp(w, id) then w.peers[id].parked else None
  }

  /** A peer's request is parked for thirty seconds; an answer, the timer, a
      revocation, a close and a restart end it, in time or not. */
  function ParkedAfter(w: World, input: Input, id: Id): Option<Time> {
    match input.cmd
    case PairFrom(i, pair) =>
      if i != id || pair == None || AskedOf(w, id).Some? then ParkedOf(w, id)
      else if !pair.value then None
      else if IsUp(w, id) && !input.env.autoAccept then Some(input.env.now + 30_000)
      else ParkedOf(w, id)
    case PairingAnswer(i, _) => if i == id then None else ParkedOf(w, id)
    case PairingTimeout(i) => if i == id then None else ParkedOf(w, id)
    case ConnClosed(i) => if i == id then None else ParkedOf(w, id)
    case Restart => None
    case _ => ParkedOf(w, id)
  }

  lemma ParkedPair(w: World, from: Id, pair: bool, env: Env, id: Id)
    ensures ParkedOf(OnPair(w, from, pair, env), id) == ParkedAfter(w, Input(PairFrom(from, Some(pair)), env), id)
  {
  }

  lemma ParkedAnswer(w: World, from: Id, accept: bool, env: Env, id: Id)
    ensures ParkedOf(OnAnswer(w, from, accept, env), id) == if from == id then None else ParkedOf(w, id)
  {
  }

  lemma ParkedStart(w: World, from: Id, env: Env, id: Id)
    ensures ParkedOf(OnStartPairing(w, from, env), id) == ParkedOf(w, id)
  {
  }

  lemma ParkedLaw(w: World, input: Input, self: Id, id: Id)
    ensures ParkedOf(Step(w, input, self), id) == ParkedAfter(w, input, id)
  {
    match input.cmd {
      case PairFrom(from, pair) => if pair.Some? { ParkedPair(w, from, pair.value, input.env, id); }
      case PairingAnswer(from, accept) => ParkedAnswer(w, from, accept, input.env, id);
      case StartPairing(from) => ParkedStart(w, from, input.env, id);
      case _ =>
    }
  }

  // ---- what peers, callers and subscribers are told ------------------------------------

  /** The pair packet a command sends, to a connected device with room in its queue:
      our request, a yes without asking, the user's own answer, and two kinds of no. */
  function Packets(w: World, input: Input): seq<Sent> {
    if !input.env.room then []
    else match input.cmd
      case StartPairing(id) => if IsUp(w, id) && Pin(w, id) == None then [Sent(id, true, Request)] else []
      case PairFrom(id, pair) =>
        if IsUp(w, id) && pair == Some(true) && AskedOf(w, id) == None && input.env.autoAccept
        then [Sent(id, true, AutoAccept)] else []
      case PairingAnswer(id, accept) => if InTime(w, id, input.env.now) then [Sent(id, accept, Answer)] else []
      case PairingTimeout(id) => if Parked(w, id) then [Sent(id, false, Expired)] else []
      case Unpair(id) => if IsUp(w, id) then [Sent(id, false, Revoke)] else []
      case _ => []
  }

  lemma SentPair(w: World, from: Id, pair: bool, env: Env)
    ensures OnPair(w, from, pair, env).sent == w.sent + Packets(w, Input(PairFrom(from, Some(pair)), env))
  {
  }

  lemma SentAnswer(w: World, from: Id, accept: bool, env: Env)
    ensures OnAnswer(w, from, accept, env).sent == w.sent + Packets(w, Input(PairingAnswer(from, accept), env))
  {
  }

  lemma SentLaw(w: World, input: Input, self: Id)
    requires !input.cmd.Restart?
    ensures Step(w, input, self).sent == w.sent + Packets(w, input)
  {
    match input.cmd {
      case PairFrom(from, pair) => if pair.Some? { SentPair(w, from, pair.value, input.env); }
      case PairingAnswer(from, accept) => SentAnswer(w, from, accept, input.env);
      case _ =>
    }
  }

  /** What the callers of StartPairing hear: a refusal at once and why, the peer's own
      word, that the connection closed, or nothing when a later call took their place. */
  function Verdicts(w: World, input: Input): seq<Resolved> {
    match input.cmd
    case StartPairing(id) =>
      if id !in w.peers then [Resolved(w.issued, UnknownDevice)]
      else if !IsUp(w, id) then [Resolved(w.issued, NotConnected)]
      else if Pin(w, id).Some? then [Resolved(w.issued, AlreadyPaired)]
      else
        (if AskedOf(w, id).Some? then [Resolved(AskedOf(w, id).value, Dropped)] else [])
        + (if input.env.room then [] else [Resolved(w.issued, SendFailed)])
    case PairFrom(id, pair) =>
      if pair.Some? && AskedOf(w, id).Some? then [Resolved(AskedOf(w, id).value, Decided(pair.value))] else []
    case ConnClosed(id) =>
      if AskedOf(w, id).Some? then [Resolved(AskedOf(w, id).value, ConnectionClosed)] else []
    case _ => []
  }

  lemma VerdictStart(w: World, id: Id, env: Env)
    ensures OnStartPairing(w, id, env).answers == w.answers + Verdicts(w, Input(StartPairing(id), env))
    ensures OnStartPairing(w, id, env).issued == w.issued + 1
  {
  }

  lemma VerdictPair(w: World, from: Id, pair: bool, env: Env)
    ensures OnPair(w, from, pair, env).answers == w.answers + Verdicts(w, Input(PairFrom(from, Some(pair)), env))
    ensures OnPair(w, from, pair, env).issued == w.issued
  {
  }

  lemma VerdictLaw(w: World, input: Input, self: Id)
    requires !input.cmd.Restart?
    ensures Step(w, input, self).answers == w.answers + Verdicts(w, input)
    ensures Step(w, input, self).issued == w.issued + if input.cmd.StartPairing? then 1 else 0
  {
    match input.cmd {
      case PairFrom(from, pair) => if pair.Some? { VerdictPair(w, from, pair.value, input.env); }
      case StartPairing(id) => VerdictStart(w, id, input.env);
      case _ =>
    }
  }

  /** What goes out on the bus. A user's yes and a revocation are told twice, once by
      the handler and once where the trust is recorded. */
  function Events(w: World, input: Input): seq<Event> {
    match input.cmd
    case Announce(id, profile) => if id in w.peers then [] else [DeviceFound(id, profile.name)]
    case Connected(id, digest) =>
      if id !in w.peers then [DeviceFound(id, "unknown")]
      else if Welcome(w, id, digest) then [StateChanged(id, IsOnline)]
      else [CertMismatch(id)]
    case IdentityFrom(_, _) => []
    case PairFrom(id, pair) =>
      if pair == None then []
      else if AskedOf(w, id).Some? then (if pair.value then [StateChanged(id, IsPaired)] else [])
      else if !pair.value then
        (if id in w.peers then [StateChanged(id, IsUnpaired)] else []) + [StateChanged(id, IsUnpaired)]
      else if !IsUp(w, id) then []
      else if input.env.autoAccept then [StateChanged(id, IsPaired)]
      else [PairingRequested(id, w.peers[id].profile.name)]
    case ConnClosed(id) => [StateChanged(id, IsOffline)]
    case PairingAnswer(id, accept) =>
      if !InTime(w, id, input.env.now) then []
      else if accept then [StateChanged(id, IsPaired), StateChanged(id, IsPaired)]
      else [StateChanged(id, IsUnpaired)]
    case Unpair(id) => if id in w.peers then [StateChanged(id, IsUnpaired)] else []
    case _ => []
  }

  lemma EventsPair(w: World, from: Id, pair: bool, env: Env)
    ensures OnPair(w, from, pair, env).bus == w.bus + Events(w, Input(PairFrom(from, Some(pair)), env))
  {
  }

  lemma EventsAnswer(w: World, from: Id, accept: bool, env: Env)
    ensures OnAnswer(w, from, accept, env).bus == w.bus + Events(w, Input(PairingAnswer(from, accept), env))
  {
  }

  lemma EventLaw(w: World, input: Input, self: Id)
    requires !input.cmd.Restart?
    ensures Step(w, input, self).bus == w.bus + Events(w, input)
  {
    match input.cmd {
      case PairFrom(from, pair) => if pair.Some? { EventsPair(w, from, pair.value, input.env); }
      case PairingAnswer(from, accept) => EventsAnswer(w, from, accept, input.env);
      case _ =>
    }
  }

  // ---- what is written to the store ------------------------------------------------------

  /** A row is written when trust is given or withdrawn, for a known device and when
      the write succeeds: the profile of the day, the certificate, the flag, the time. */
  function RowAfter(w: World, input: Input, id: Id): Option<Row> {
    if id in w.peers && input.env.saved && TrustRuns.Grants(w, input, id) then
      Some(Row(w.peers[id].profile, w.peers[id].live, true, input.env.now))
    else if id in w.peers && input.env.saved && TrustRuns.Revokes(w, input, id) then
      Some(Row(w.peers[id].profile, "", false, input.env.now))
    else if id in w.rows then Some(w.rows[id])
    else None
  }

  function RowOf(rows: map<Id, Row>, id: Id): Option<Row> {
    if id in rows then Some(rows[id]) else None
  }

  lemma RowPair(w: World, from: Id, pair: bool, env: Env, id: Id)
    ensures RowOf(OnPair(w, from, pair, env).rows, id) == RowAfter(w, Input(PairFrom(from, Some(pair)), env), id)
  {
  }

  lemma RowAnswer(w: World, from: Id, accept: bool, env: Env, id: Id)
    ensures RowOf(OnAnswer(w, from, accept, env).rows, id) == RowAfter(w, Input(PairingAnswer(from, accept), env), id)
  {
  }

  lemma RowLaw(w: World, input: Input, self: Id, id: Id)
    ensures RowOf(Step(w, input, self).rows, id) == RowAfter(w, input, id)
  {
    match input.cmd {
      case PairFrom(from, pair) => if pair.Some? { RowPair(w, from, pair.value, input.env, id); }
      case PairingAnswer(from, accept) => RowAnswer(w, from, accept, input.env, id);
      case _ =>
    }
  }
}
