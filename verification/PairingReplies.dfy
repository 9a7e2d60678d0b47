/** Conservation of replies: nobody is answered twice, nobody is lost. */
module PairingReplies {
  import opened Prelude
  import opened Trust

  // ---- the reply channels of our own pairing requests ----------------------

  /** How often channel `r` was resolved or dropped. */
  function Times(answers: seq<Resolved>, r: nat): nat {
    if answers == [] then 0
    else Times(answers[..|answers| - 1], r) + if answers[|answers| - 1].reply == r then 1 else 0
  }

  lemma TimesAppend(answers: seq<Resolved>, a: Resolved, r: nat)
    ensures Times(answers + [a], r) == Times(answers, r) + if a.reply == r then 1 else 0
  {
    assert (answers + [a])[..|answers|] == answers;
  }

  function AskedOf(w: World, id: Id): Option<nat> {
    if IsUp(w, id) then w.peers[id].asked else None
  }

  ghost predicate Waiting(w: World, r: nat) {
    exists id :: AskedOf(w, id) == Some(r)
  }

  /** Each channel handed out is either the one pending channel of exactly one
      connected device, or has been resolved or dropped exactly once. */
  ghost predicate Conserved(w: World) {
    && (forall a, b :: AskedOf(w, a).Some? && AskedOf(w, a) == AskedOf(w, b) ==> a == b)
    && (forall r: nat :: Times(w.answers, r) == if r < w.issued && !Waiting(w, r) then 1 else 0)
    && (forall id :: AskedOf(w, id).Some? ==> AskedOf(w, id).value < w.issued)
  }

  ghost predicate SameAsked(w: World, w': World) {
    forall id :: AskedOf(w', id) == AskedOf(w, id)
  }

  ghost predicate OthersAsked(w: World, w': World, id: Id) {
    forall o :: o != id ==> AskedOf(w', o) == AskedOf(w, o)
  }

  /** A step that touches no channel. */
  lemma Untouched(w: World, w': World)
    requires Conserved(w) && SameAsked(w, w') && w'.answers == w.answers && w'.issued == w.issued
    ensures Conserved(w')
  {
    forall r: nat
      ensures Waiting(w', r) <==> Waiting(w, r)
    {
      if Waiting(w', r) {
        var id :| AskedOf(w', id) == Some(r);
        assert AskedOf(w, id) == Some(r);
      }
      if Waiting(w, r) {
        var id :| AskedOf(w, id) == Some(r);
        assert AskedOf(w', id) == Some(r);
      }
    }
  }

  /** The pending channel of `id` is resolved. */
  lemma Settled(w: World, w': World, id: Id, outcome: Outcome)
    requires Conserved(w) && AskedOf(w, id).Some? && AskedOf(w', id) == None && OthersAsked(w, w', id)
    requires w'.issued == w.issued && w'.answers == w.answers + [Resolved(AskedOf(w, id).value, outcome)]
    ensures Conserved(w')
  {
    var mine := AskedOf(w, id).value;
    forall r: nat
      ensures Times(w'.answers, r) == if r < w'.issued && !Waiting(w', r) then 1 else 0
    {
      TimesAppend(w.answers, Resolved(mine, outcome), r);
      assert Waiting(w, mine);
      assert r != mine && Waiting(w, r) ==> exists o :: o != id && AskedOf(w', o) == Some(r);
      assert Waiting(w', r) ==> exists o :: o != id && AskedOf(w, o) == Some(r);
    }
  }

  /** A new channel is resolved at once. */
  lemma Refused(w: World, w': World, outcome: Outcome)
    requires Conserved(w) && SameAsked(w, w')
    requires w'.issued == w.issued + 1 && w'.answers == w.answers + [Resolved(w.issued, outcome)]
    ensures Conserved(w')
  {
    forall r: nat
      ensures Times(w'.answers, r) == if r < w'.issued && !Waiting(w', r) then 1 else 0
    {
      TimesAppend(w.answers, Resolved(w.issued, outcome), r);
      assert Waiting(w', r) ==> exists o :: AskedOf(w, o) == Some(r);
      assert Waiting(w, r) ==> exists o :: AskedOf(w', o) == Some(r);
    }
  }

  /** A new channel becomes the pending one of an idle device. */
  lemma Opened(w: World, w': World, id: Id)
    requires Conserved(w) && AskedOf(w, id) == None && AskedOf(w', id) == Some(w.issued) && OthersAsked(w, w', id)
    requires w'.issued == w.issued + 1 && w'.answers == w.answers
    ensures Conserved(w')
  {
    forall r: nat
      ensures Times(w'.answers, r) == if r < w'.issued && !Waiting(w', r) then 1 else 0
    {
      assert Waiting(w', w.issued);
      assert r != w.issued && Waiting(w', r) ==> exists o :: o != id && AskedOf(w, o) == Some(r);
      assert Waiting(w, r) ==> exists o :: o != id && AskedOf(w', o) == Some(r);
    }
  }

  /** The world after dropping whatever channel `id` still holds. */
  function Idle(w: World, id: Id): World
    requires IsUp(w, id)
  {
    Resolve(Put(w, id, w.peers[id].(asked := None)), w.peers[id].asked, Dropped)
  }

  lemma IdleKeeps(w: World, id: Id)
    requires Conserved(w) && IsUp(w, id)
    ensures Conserved(Idle(w, id)) && AskedOf(Idle(w, id), id) == None
  {
    if w.peers[id].asked.Some? {
      Settled(w, Idle(w, id), id, Dropped);
    } else {
      Untouched(w, Idle(w, id));
    }
  }

  lemma StartKeeps(w: World, id: Id, env: Env)
    requires Conserved(w)
    ensures Conserved(OnStartPairing(w, id, env))
  {
    var w' := OnStartPairing(w, id, env);
    if id !in w.peers {
      Refused(w, w', UnknownDevice);
    } else if !IsUp(w, id) {
      Refused(w, w', NotConnected);
    } else if w.peers[id].trusted {
      Refused(w, w', AlreadyPaired);
    } else {
      IdleKeeps(w, id);
      var idle := Idle(w, id);
      if env.room {
        Opened(idle, w', id);
      } else {
        Refused(idle, w', SendFailed);
      }
    }
  }

  lemma PairKeeps(w: World, id: Id, pair: bool, env: Env)
    requires Conserved(w)
    ensures Conserved(OnPair(w, id, pair, env))
  {
    var w' := OnPair(w, id, pair, env);
    if Asked(w, id) {
      Settled(w, w', id, Decided(pair));
    } else {
      Untouched(w, w');
    }
  }

  lemma ClosedKeeps(w: World, id: Id)
    requires Conserved(w)
    ensures Conserved(OnClosed(w, id))
  {
    var w' := OnClosed(w, id);
    if Asked(w, id) {
      Settled(w, w', id, ConnectionClosed);
    } else {
      Untouched(w, w');
    }
  }

  lemma AnswerKeeps(w: World, id: Id, accept: bool, env: Env)
    requires Conserved(w)
    ensures Conserved(OnAnswer(w, id, accept, env))
  {
    Untouched(w, OnAnswer(w, id, accept, env));
  }

  lemma AnnounceKeeps(w: World, id: Id, profile: Profile)
    requires Conserved(w)
    ensures Conserved(OnAnnounce(w, id, profile))
  {
    Untouched(w, OnAnnounce(w, id, profile));
  }

  lemma ConnectedKeeps(w: World, id: Id, digest: Digest)
    requires Conserved(w)
    ensures Conserved(OnConnected(w, id, digest))
  {
    Untouched(w, OnConnected(w, id, digest));
  }

  lemma UnpairKeeps(w: World, id: Id, env: Env)
    requires Conserved(w)
    ensures Conserved(OnUnpair(w, id, env))
  {
    Untouched(w, OnUnpair(w, id, env));
  }

  lemma LoadConserves(rows: map<Id, Row>, self: Id)
    ensures Conserved(Load(rows, self))
  {
  }

  lemma StepConserves(w: World, input: Input, self: Id)
    requires Conserved(w)
    ensures Conserved(Step(w, input, self))
  {
    match input.cmd {
      case StartPairing(id) => StartKeeps(w, id, input.env);
      case PairFrom(id, pair) => if pair.Some? { PairKeeps(w, id, pair.value, input.env); }
      case ConnClosed(id) => ClosedKeeps(w, id);
      case PairingAnswer(id, accept) => AnswerKeeps(w, id, accept, input.env);
      case Announce(id, profile) => AnnounceKeeps(w, id, profile);
      case Connected(id, digest) => ConnectedKeeps(w, id, digest);
      case IdentityFrom(id, profile) => Untouched(w, OnIdentity(w, id, profile));
      case PairingTimeout(id) => Untouched(w, OnTimeout(w, id, input.env));
      case Unpair(id) => UnpairKeeps(w, id, input.env);
      case Restart => LoadConserves(w.rows, self);
    }
  }

  // ---- the replies to requests parked for the user -------------------------

  /** Pairing requests surfaced to the user for `id`. */
  function Requests(bus: seq<Event>, id: Id): nat {
    if bus == [] then 0
    else
      var last := bus[|bus| - 1];
      Requests(bus[..|bus| - 1], id) + if last.PairingRequested? && last.id == id then 1 else 0
  }

  /** Answers and expiry notices sent to `id`. */
  function Replies(sent: seq<Sent>, id: Id): nat {
    if sent == [] then 0
    else
      var last := sent[|sent| - 1];
      Replies(sent[..|sent| - 1], id) + if last.to == id && (last.why == Answer || last.why == Expired) then 1 else 0
  }

  lemma RequestsAppend(bus: seq<Event>, e: Event, id: Id)
    ensures Requests(bus + [e], id) == Requests(bus, id) + if e.PairingRequested? && e.id == id then 1 else 0
  {
    assert (bus + [e])[..|bus|] == bus;
  }

  lemma RepliesAppend(sent: seq<Sent>, m: Sent, id: Id)
    ensures Replies(sent + [m], id) == Replies(sent, id) + if m.to == id && (m.why == Answer || m.why == Expired) then 1 else 0
  {
    assert (sent + [m])[..|sent|] == sent;
  }

  /** What was answered, plus what is still parked, was asked for. */
  predicate Accounted(w: World, id: Id) {
    Replies(w.sent, id) + (if Parked(w, id) then 1 else 0) <= Requests(w.bus, id)
  }

  lemma PublishCounts(w: World, e: Event, id: Id)
    ensures Requests(Publish(w, e).bus, id) == Requests(w.bus, id) + if e.PairingRequested? && e.id == id then 1 else 0
  {
    RequestsAppend(w.bus, e, id);
  }

  lemma SendCounts(w: World, to: Id, pair: bool, why: Why, room: bool, id: Id)
    ensures Replies(Send(w, to, pair, why, room).sent, id)
         <= Replies(w.sent, id) + if to == id && (why == Answer || why == Expired) then 1 else 0
  {
    RepliesAppend(w.sent, Sent(to, pair, why), id);
  }

  lemma GrantAccounts(w: World, from: Id, env: Env, id: Id)
    requires IsUp(w, from)
    ensures Requests(Grant(w, from, env).bus, id) == Requests(w.bus, id)
    ensures Grant(w, from, env).sent == w.sent && (Parked(Grant(w, from, env), id) <==> Parked(w, id))
  {
    RequestsAppend(w.bus, StateChanged(from, IsPaired), id);
  }

  lemma WithdrawAccounts(w: World, from: Id, env: Env, id: Id)
    ensures Requests(Withdraw(w, from, env).bus, id) == Requests(w.bus, id)
    ensures Withdraw(w, from, env).sent == w.sent && (Parked(Withdraw(w, from, env), id) <==> Parked(w, id))
  {
    var w' := Withdraw(w, from, env);
    assert w'.bus == if from in w.peers then w.bus + [StateChanged(from, IsUnpaired)] else w.bus;
    assert w'.sent == w.sent && (Parked(w', id) <==> Parked(w, id));
    RequestsAppend(w.bus, StateChanged(from, IsUnpaired), id);
  }

  /** The answer to our own request, yes or no. */
  lemma AnsweredAccounts(w: World, from: Id, pair: bool, env: Env, id: Id)
    requires Accounted(w, id) && Asked(w, from)
    ensures Accounted(OnPair(w, from, pair, env), id)
  {
    if pair {
      GrantAccounts(Resolve(Put(w, from, w.peers[from].(asked := None)), w.peers[from].asked, Decided(pair)), from, env, id);
    }
  }

  lemma RevokedAccounts(w: World, from: Id, env: Env, id: Id)
    requires Accounted(w, id) && !Asked(w, from)
    ensures Accounted(OnPair(w, from, false, env), id)
  {
    WithdrawAccounts(Unpark(w, from), from, env, id);
    PublishCounts(Withdraw(Unpark(w, from), from, env), StateChanged(from, IsUnpaired), id);
  }

  lemma RequestedAccounts(w: World, from: Id, env: Env, id: Id)
    requires Accounted(w, id) && !Asked(w, from) && IsUp(w, from)
    ensures Accounted(OnPair(w, from, true, env), id)
  {
    if env.autoAccept {
      GrantAccounts(w, from, env, id);
      SendCounts(Grant(w, from, env), from, true, AutoAccept, env.room, id);
    } else {
      RequestsAppend(w.bus, PairingRequested(from, w.peers[from].profile.name), id);
    }
  }

  lemma PairAccounts(w: World, from: Id, pair: bool, env: Env, id: Id)
    requires Accounted(w, id)
    ensures Accounted(OnPair(w, from, pair, env), id)
  {
    if Asked(w, from) {
      AnsweredAccounts(w, from, pair, env, id);
    } else if !pair {
      RevokedAccounts(w, from, env, id);
    } else if IsUp(w, from) {
      RequestedAccounts(w, from, env, id);
    }
  }

  lemma SendPublish(w: World, to: Id, pair: bool, why: Why, room: bool, state: Label, id: Id)
    ensures var w' := Publish(Send(w, to, pair, why, room), StateChanged(to, state));
            && Requests(w'.bus, id) == Requests(w.bus, id)
            && Replies(w'.sent, id) <= Replies(w.sent, id) + (if to == id then 1 else 0)
            && (Parked(w', id) <==> Parked(w, id))
  {
    SendCounts(w, to, pair, why, room, id);
    RequestsAppend(w.bus, StateChanged(to, state), id);
  }

  lemma AnswerAccounts(w: World, from: Id, accept: bool, env: Env, id: Id)
    requires Accounted(w, id)
    ensures Accounted(OnAnswer(w, from, accept, env), id)
  {
    var w1 := Unpark(w, from);
    if AnswerReply(w, from, env) == Done {
      if accept {
        GrantAccounts(w1, from, env, id);
        SendPublish(Grant(w1, from, env), from, true, Answer, env.room, IsPaired, id);
      } else {
        SendPublish(w1, from, false, Answer, env.room, IsUnpaired, id);
      }
    }
  }

  lemma StartAccounts(w: World, from: Id, env: Env, id: Id)
    requires Accounted(w, id)
    ensures Accounted(OnStartPairing(w, from, env), id)
  {
    var w' := OnStartPairing(w, from, env);
    assert w'.bus == w.bus && (Parked(w', id) <==> Parked(w, id));
    assert w'.sent == w.sent || w'.sent == w.sent + [Sent(from, true, Request)];
    RepliesAppend(w.sent, Sent(from, true, Request), id);
  }

  lemma ConnectedAccounts(w: World, from: Id, digest: Digest, id: Id)
    requires Accounted(w, id)
    ensures Accounted(OnConnected(w, from, digest), id)
  {
    var w' := OnConnected(w, from, digest);
    assert w'.sent == w.sent && (Parked(w', id) ==> Parked(w, id));
    assert w'.bus[..|w.bus|] == w.bus;
    RequestsAppend(w.bus, DeviceFound(from, "unknown"), id);
    RequestsAppend(w.bus, CertMismatch(from), id);
    RequestsAppend(w.bus, StateChanged(from, IsOnline), id);
  }

  lemma ClosedAccounts(w: World, from: Id, id: Id)
    requires Accounted(w, id)
    ensures Accounted(OnClosed(w, from), id)
  {
    RequestsAppend(w.bus, StateChanged(from, IsOffline), id);
  }

  lemma TimeoutAccounts(w: World, from: Id, env: Env, id: Id)
    requires Accounted(w, id)
    ensures Accounted(OnTimeout(w, from, env), id)
  {
    RepliesAppend(w.sent, Sent(from, false, Expired), id);
  }

  lemma UnpairAccounts(w: World, from: Id, env: Env, id: Id)
    requires Accounted(w, id)
    ensures Accounted(OnUnpair(w, from, env), id)
  {
    var w1 := Send(w, from, false, Revoke, env.room);
    SendCounts(w, from, false, Revoke, env.room, id);
    assert w1.bus == w.bus && w1.peers == w.peers;
    WithdrawAccounts(Send(w, from, false, Revoke, env.room), from, env, id);
  }

  lemma AnnounceAccounts(w: World, from: Id, profile: Profile, id: Id)
    requires Accounted(w, id)
    ensures Accounted(OnAnnounce(w, from, profile), id)
  {
    var w' := OnAnnounce(w, from, profile);
    RequestsAppend(w.bus, DeviceFound(from, profile.name), id);
    assert w'.sent == w.sent && (Parked(w', id) <==> Parked(w, id));
    assert Requests(w'.bus, id) == Requests(w.bus, id);
  }

  predicate AboutPairing(cmd: Command) {
    cmd.PairFrom? || cmd.StartPairing? || cmd.PairingAnswer? || cmd.PairingTimeout? || cmd.Unpair?
  }

  lemma PairingAccounts(w: World, input: Input, self: Id, id: Id)
    requires Accounted(w, id) && AboutPairing(input.cmd)
    ensures Accounted(Step(w, input, self), id)
  {
    var cmd, env := input.cmd, input.env;
    if cmd.PairFrom? {
      if cmd.pair.Some? {
        PairAccounts(w, cmd.id, cmd.pair.value, env, id);
      }
    } else if cmd.StartPairing? {
      StartAccounts(w, cmd.id, env, id);
    } else if cmd.PairingAnswer? {
      AnswerAccounts(w, cmd.id, cmd.accept, env, id);
    } else if cmd.PairingTimeout? {
      TimeoutAccounts(w, cmd.id, env, id);
    } else {
      UnpairAccounts(w, cmd.id, env, id);
    }
  }

  lemma StepAccounts(w: World, input: Input, self: Id, id: Id)
    requires Accounted(w, id)
    ensures Accounted(Step(w, input, self), id)
  {
    match input.cmd {
      case Announce(from, profile) => AnnounceAccounts(w, from, profile, id);
      case Connected(from, digest) => ConnectedAccounts(w, from, digest, id);
      case IdentityFrom(from, _) =>
      case ConnClosed(from) => ClosedAccounts(w, from, id);
      case Restart =>
      case _ => PairingAccounts(w, input, self, id);
    }
  }

  // ---- over every run --------------------------------------------------------

  /** In every run of the daemon: each StartPairing channel is pending on one
      connected device or was resolved exactly once, and the answers and expiry
      notices sent to a device never exceed the requests parked for it. */
  lemma {:induction false} RunConserves(rows: map<Id, Row>, inputs: seq<Input>, self: Id, id: Id)
    ensures Conserved(Run(Load(rows, self), inputs, self))
    ensures Accounted(Run(Load(rows, self), inputs, self), id)
  {
    if inputs == [] {
      LoadConserves(rows, self);
    } else {
      var before := Run(Load(rows, self), inputs[..|inputs| - 1], self);
      RunConserves(rows, inputs[..|inputs| - 1], self, id);
      StepConserves(before, inputs[|inputs| - 1], self);
      StepAccounts(before, inputs[|inputs| - 1], self, id);
    }
  }
}
