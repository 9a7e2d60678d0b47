/** The device-manager actor (crates/daemon/src/device.rs), field by field, over
    the database table behind it (crates/core/src/store.rs). Every handler is
    proved to be a step of the machine in module Trust. */
module DeviceManager {
  import opened Prelude
  import opened Trust

  /** The devices table: one row per identifier. */
  class Store {
    var rows: map<Id, Row>

    constructor (rows: map<Id, Row>)
      ensures this.rows == rows
    {
      this.rows := rows;
    }

    /** Insert or replace; `ok` is whether the database accepts the write. */
    method UpsertDevice(id: Id, row: Row, ok: bool)
      modifies this
      ensures rows == if ok then old(rows)[id := row] else old(rows)
    {
      if ok {
        rows := rows[id := row];
      }
    }

    /** Every row exactly once. */
    method ListDevices() returns (list: seq<(Id, Row)>)
      ensures forall i :: 0 <= i < |list| ==> list[i].0 in rows && list[i].1 == rows[list[i].0]
      ensures forall i, j :: 0 <= i < j < |list| ==> list[i].0 != list[j].0
      ensures forall id :: id in rows ==> exists i :: 0 <= i < |list| && list[i].0 == id
    {
      list := [];
      var left := rows.Keys;
      while left != {}
        invariant left <= rows.Keys
        invariant forall i :: 0 <= i < |list| ==> list[i].0 in rows && list[i].0 !in left && list[i].1 == rows[list[i].0]
        invariant forall i, j :: 0 <= i < j < |list| ==> list[i].0 != list[j].0
        invariant forall id :: id in rows && id !in left ==> exists i :: 0 <= i < |list| && list[i].0 == id
        decreases left
      {
        var id :| id in left;
        ghost var before := list;
        list := list + [(id, rows[id])];
        left := left - {id};
        assert list[|list| - 1].0 == id;
        assert forall i :: 0 <= i < |before| ==> list[i] == before[i];
      }
    }
  }

  datatype DeviceState = DeviceState(
    profile: Profile,
    liveFingerprint: Option<Fingerprint>,
    pinnedFingerprint: Option<Fingerprint>,
    outbound: bool,
    pendingPairReply: Option<nat>)

  /** What ties one device's optional fields together. */
  ghost predicate Coherent(d: DeviceState) {
    && (d.outbound <==> d.liveFingerprint.Some?)
    && (d.pendingPairReply.Some? ==> d.outbound)
    && (d.outbound && d.pinnedFingerprint.Some? ==> d.liveFingerprint == d.pinnedFingerprint)
  }

  ghost function AsPeer(d: DeviceState, parked: Option<Time>): Peer {
    if d.outbound then
      Online(d.profile, d.liveFingerprint.GetOr(""), d.pinnedFingerprint.Some?, d.pendingPairReply, parked)
    else
      Offline(d.profile, d.pinnedFingerprint)
  }

  function Lookup<T>(m: map<Id, T>, id: Id): Option<T> {
    if id in m then Some(m[id]) else None
  }

  function NewDevice(profile: Profile): DeviceState {
    DeviceState(profile, None, None, false, None)
  }

  ghost function PeersOf(devices: map<Id, DeviceState>, incoming: map<Id, Time>): map<Id, Peer> {
    map id | id in devices :: AsPeer(devices[id], Lookup(incoming, id))
  }

  lemma PeersPut(devices: map<Id, DeviceState>, incoming: map<Id, Time>, id: Id, d: DeviceState)
    ensures PeersOf(devices[id := d], incoming) == PeersOf(devices, incoming)[id := AsPeer(d, Lookup(incoming, id))]
  {
  }

  lemma PeersPark(devices: map<Id, DeviceState>, incoming: map<Id, Time>, id: Id, deadline: Time)
    requires id in devices
    ensures PeersOf(devices, incoming[id := deadline]) == PeersOf(devices, incoming)[id := AsPeer(devices[id], Some(deadline))]
  {
  }

  lemma PeersUnpark(devices: map<Id, DeviceState>, incoming: map<Id, Time>, id: Id)
    ensures PeersOf(devices, incoming - {id})
         == if id in devices then PeersOf(devices, incoming)[id := AsPeer(devices[id], None)] else PeersOf(devices, incoming)
  {
  }

  lemma PutTwice(w: World, id: Id, a: Peer, b: Peer)
    ensures Put(Put(w, id, a), id, b) == Put(w, id, b)
  {
    assert w.peers[id := a][id := b] == w.peers[id := b];
  }

  lemma PutSame(w: World, id: Id)
    requires id in w.peers
    ensures Put(w, id, w.peers[id]) == w
  {
    assert w.peers[id := w.peers[id]] == w.peers;
  }

  function Restored(rows: map<Id, Row>, id: Id): DeviceState
    requires id in rows
  {
    NewDevice(rows[id].profile).(pinnedFingerprint := RowPin(rows, id))
  }

  lemma RestoredPeers(devices: map<Id, DeviceState>, rows: map<Id, Row>, self: Id)
    requires devices.Keys == rows.Keys - {self}
    requires forall id :: id in devices ==> devices[id] == Restored(rows, id)
    ensures PeersOf(devices, map[]) == Load(rows, self).peers
  {
  }

  /** Trusting a device that is not connected keeps its pin, or pins nothing at all. */
  ghost function Fallback(w: World, id: Id, env: Env): World
    requires id in w.peers && w.peers[id].Offline?
  {
    var p := w.peers[id];
    var pin := p.pin.GetOr("");
    var w1 := Put(w, id, Offline(p.profile, Some(pin)));
    Publish(Save(w1, id, Row(p.profile, pin, true, env.now), env.saved), StateChanged(id, IsPaired))
  }

  class Manager {
    const self: Id
    const store: Store
    var devices: map<Id, DeviceState>
    var incomingPairs: map<Id, Time>
    // what the environment sees: queued pair packets, bus events, pairing replies
    var sent: seq<Sent>
    var bus: seq<Event>
    var answers: seq<Resolved>
    var issued: nat

    ghost predicate Valid()
      reads this
    {
      && (forall id :: id in devices ==> Coherent(devices[id]))
      && (forall id :: id in incomingPairs ==> id in devices && devices[id].outbound)
    }

    ghost function Peers(): map<Id, Peer>
      reads this
    {
      PeersOf(devices, incomingPairs)
    }

    ghost function View(): World
      reads this, store
    {
      World(Peers(), store.rows, sent, bus, answers, issued)
    }

    /** The pin the run theorems speak of is the device's own field. */
    lemma PinIsField(id: Id)
      requires Valid()
      ensures Pin(View(), id) == if id in devices then devices[id].pinnedFingerprint else None
    {
    }

    /** A fresh process: restore persisted trust from the database. */
    constructor (self: Id, store: Store)
      ensures this.self == self && this.store == store
      ensures Valid() && View() == Load(store.rows, self)
    {
      this.self := self;
      this.store := store;
      devices := map[];
      incomingPairs := map[];
      sent, bus, answers, issued := [], [], [], 0;
      new;
      LoadPersisted();
    }

    method LoadPersisted()
      requires devices == map[] && incomingPairs == map[]
      modifies this`devices
      ensures Valid()
      ensures Peers() == Load(store.rows, self).peers
    {
      var list := store.ListDevices();
      for k := 0 to |list|
        invariant forall id :: id in devices <==> id != self && exists i :: 0 <= i < k && list[i].0 == id
        invariant forall id :: id in devices ==>
          id in store.rows && devices[id] == Restored(store.rows, id)
      {
        var (id, row) := list[k];
        if id == self {
          continue;
        }
        var state := NewDevice(row.profile);
        state := state.(pinnedFingerprint := if row.paired then Some(row.fingerprint) else None);
        devices := devices[id := state];
      }
      assert devices.Keys == store.rows.Keys - {self};
      RestoredPeers(devices, store.rows, self);
    }

    /** `get_mut` and a write: no other device changes. */
    method SetDevice(id: Id, d: DeviceState)
      requires Valid() && Coherent(d) && (id in incomingPairs ==> d.outbound)
      modifies this`devices
      ensures Valid() && devices == old(devices)[id := d]
      ensures View() == Put(old(View()), id, AsPeer(d, Lookup(incomingPairs, id)))
    {
      PeersPut(devices, incomingPairs, id, d);
      devices := devices[id := d];
    }

    /** `send_out`: queued only with a live connection and room in its queue. */
    method SendOut(id: Id, pair: bool, why: Why, room: bool) returns (ok: bool)
      requires Valid()
      modifies this`sent
      ensures Valid() && View() == Send(old(View()), id, pair, why, room)
      ensures ok == (id in devices && devices[id].outbound && room)
    {
      ok := id in devices && devices[id].outbound && room;
      if ok {
        sent := sent + [Sent(id, pair, why)];
      }
    }

    method OnAnnounce(id: Id, profile: Profile)
      requires Valid()
      modifies this
      ensures Valid() && View() == Trust.OnAnnounce(old(View()), id, profile)
    {
      if id !in devices {
        SetDevice(id, NewDevice(profile));
        bus := bus + [DeviceFound(id, profile.name)];
      } else {
        SetDevice(id, devices[id].(profile := profile));
      }
    }

    /** The pinning gate: a pinned device must present the pinned certificate. */
    method OnConnected(id: Id, digest: Digest)
      requires Valid()
      modifies this
      ensures Valid() && View() == Trust.OnConnected(old(View()), id, digest)
    {
      var fingerprint := Hex(digest);
      if id in devices && devices[id].pinnedFingerprint.Some? && devices[id].pinnedFingerprint.value != fingerprint {
        bus := bus + [CertMismatch(id)];
        return;
      }
      if id in devices {
        var state := devices[id].(outbound := true, liveFingerprint := Some(fingerprint));
        SetDevice(id, state);
        bus := bus + [StateChanged(id, IsOnline)];
      } else {
        var state := NewDevice(Profile(id, "unknown")).(outbound := true, liveFingerprint := Some(fingerprint));
        SetDevice(id, state);
        bus := bus + [DeviceFound(id, "unknown")];
      }
    }

    method OnIdentity(id: Id, profile: Profile)
      requires Valid()
      modifies this`devices
      ensures Valid() && View() == Trust.OnIdentity(old(View()), id, profile)
    {
      if id in devices {
        SetDevice(id, devices[id].(profile := profile));
      }
    }

    /** Record trust as the source does, fallbacks included: the live fingerprint,
        else the pin already there, else the empty string. For a connected device
        that is pinning the live certificate; the last clause is the fallback,
        which no handler below reaches. */
    method PersistTrust(id: Id, paired: bool, env: Env)
      requires Valid()
      modifies this`devices, this`bus, store
      ensures Valid()
      ensures paired && IsUp(old(View()), id) ==> View() == Grant(old(View()), id, env)
      ensures !paired ==> View() == Withdraw(old(View()), id, env)
      ensures paired && id !in old(devices) ==> View() == old(View())
      ensures paired && id in old(devices) && !IsUp(old(View()), id) ==> View() == Fallback(old(View()), id, env)
    {
      if id !in devices {
        return;
      }
      var state := devices[id];
      var fingerprint := "";
      if paired {
        fingerprint := state.liveFingerprint.GetOr(state.pinnedFingerprint.GetOr(""));
      }
      state := state.(pinnedFingerprint := if paired then Some(fingerprint) else None);
      SetDevice(id, state);
      store.UpsertDevice(id, Row(state.profile, fingerprint, paired, env.now), env.saved);
      bus := bus + [StateChanged(id, if paired then IsPaired else IsUnpaired)];
    }

    /** `incoming_pairs.remove`. */
    method RemoveIncoming(id: Id) returns (deadline: Option<Time>)
      requires Valid()
      modifies this`incomingPairs
      ensures Valid() && View() == Unpark(old(View()), id)
      ensures deadline == Lookup(old(incomingPairs), id)
      ensures incomingPairs == old(incomingPairs) - {id}
    {
      PeersUnpark(devices, incomingPairs, id);
      deadline := Lookup(incomingPairs, id);
      incomingPairs := incomingPairs - {id};
      assert !Parked(old(View()), id) ==> Peers() == old(Peers());
    }

    method OnPairPacket(id: Id, pair: Option<bool>, env: Env)
      requires Valid()
      modifies this, store
      ensures Valid()
      ensures View() == if pair.Some? then OnPair(old(View()), id, pair.value, env) else old(View())
    {
      if pair == None {
        return;
      }
      var wantsPair := pair.value;
      if id in devices && devices[id].pendingPairReply.Some? {
        ResolvePending(id, wantsPair, env);
      } else if wantsPair {
        OnPairRequest(id, env);
      } else {
        var _ := RemoveIncoming(id);
        PersistTrust(id, false, env);
        bus := bus + [StateChanged(id, IsUnpaired)];
      }
    }

    /** Case 1 of a pair packet: the answer to a pairing we initiated. */
    method ResolvePending(id: Id, wantsPair: bool, env: Env)
      requires Valid() && id in devices && devices[id].pendingPairReply.Some?
      modifies this, store
      ensures Valid() && View() == OnPair(old(View()), id, wantsPair, env)
    {
      var reply := devices[id].pendingPairReply.value;
      SetDevice(id, devices[id].(pendingPairReply := None));
      answers := answers + [Resolved(reply, Decided(wantsPair))];
      if wantsPair {
        PersistTrust(id, true, env);
      }
    }

    /** Case 2 of a pair packet: the remote wants to pair with us. */
    method OnPairRequest(id: Id, env: Env)
      requires Valid() && (id in devices ==> devices[id].pendingPairReply == None)
      modifies this, store
      ensures Valid() && View() == OnPair(old(View()), id, true, env)
    {
      var connected := id in devices && devices[id].outbound;
      if env.autoAccept && connected {
        PersistTrust(id, true, env);
        var _ := SendOut(id, true, AutoAccept, env.room);
        return;
      }
      if !connected {
        var _ := SendOut(id, false, Answer, env.room);
        return;
      }
      PeersPark(devices, incomingPairs, id, env.now + INCOMING_PAIR_TIMEOUT);
      incomingPairs := incomingPairs[id := env.now + INCOMING_PAIR_TIMEOUT];
      bus := bus + [PairingRequested(id, devices[id].profile.name)];
    }

    method AnswerIncomingPairing(id: Id, accept: bool, env: Env) returns (r: Reply)
      requires Valid()
      modifies this, store
      ensures Valid() && View() == OnAnswer(old(View()), id, accept, env)
      ensures r == if id !in old(incomingPairs) then NoPending
                   else if env.now > old(incomingPairs)[id] then TooLate else Done
    {
      assert Parked(View(), id) <==> id in incomingPairs;
      var pending := RemoveIncoming(id);
      if pending == None {
        return NoPending;
      }
      if env.now > pending.value {
        return TooLate;
      }
      if accept {
        PersistTrust(id, true, env);
      }
      var _ := SendOut(id, accept, Answer, env.room);
      bus := bus + [StateChanged(id, if accept then IsPaired else IsUnpaired)];
      return Done;
    }

    method OnPairingTimeout(id: Id, env: Env)
      requires Valid()
      modifies this
      ensures Valid() && View() == OnTimeout(old(View()), id, env)
    {
      assert Parked(View(), id) <==> id in incomingPairs;
      var pending := RemoveIncoming(id);
      if pending.Some? {
        var _ := SendOut(id, false, Expired, env.room);
      }
    }

    /** The caller's reply channel is number `issued`. */
    method BeginPairing(id: Id, env: Env)
      requires Valid()
      modifies this
      ensures Valid() && View() == OnStartPairing(old(View()), id, env)
    {
      var reply := issued;
      issued := issued + 1;
      if id !in devices {
        answers := answers + [Resolved(reply, UnknownDevice)];
      } else if !devices[id].outbound {
        answers := answers + [Resolved(reply, NotConnected)];
      } else if devices[id].pinnedFingerprint.Some? {
        answers := answers + [Resolved(reply, AlreadyPaired)];
      } else {
        AskPeer(id, reply, env.room);
      }
    }

    /** Overwriting a pending reply channel drops it. */
    method AskPeer(id: Id, reply: nat, room: bool)
      requires Valid() && id in devices && devices[id].outbound
      modifies this
      ensures Valid() && View() == Ask(old(View()), id, reply, room)
    {
      var state := devices[id];
      if state.pendingPairReply.Some? {
        answers := answers + [Resolved(state.pendingPairReply.value, Dropped)];
      }
      ghost var w := View();
      SetDevice(id, state.(pendingPairReply := Some(reply)));
      var ok := SendOut(id, true, Request, room);
      if !ok {
        PutTwice(w, id, View().peers[id], w.peers[id].(asked := None));
        SetDevice(id, state.(pendingPairReply := None));
        answers := answers + [Resolved(reply, SendFailed)];
      }
    }

    method UnpairDevice(id: Id, env: Env)
      requires Valid()
      modifies this, store
      ensures Valid() && View() == OnUnpair(old(View()), id, env)
    {
      var _ := SendOut(id, false, Revoke, env.room);
      PersistTrust(id, false, env);
    }

    method OnClosed(id: Id)
      requires Valid()
      modifies this
      ensures Valid() && View() == Trust.OnClosed(old(View()), id)
    {
      ghost var w := View();
      var _ := RemoveIncoming(id);
      if id in devices {
        var reply := devices[id].pendingPairReply;
        var state := devices[id].(outbound := false, liveFingerprint := None, pendingPairReply := None);
        PutTwice(w, id, View().peers[id], AsPeer(state, None));
        PutSame(w, id);
        SetDevice(id, state);
        if reply.Some? {
          answers := answers + [Resolved(reply.value, ConnectionClosed)];
        }
      }
      bus := bus + [StateChanged(id, IsOffline)];
    }

    /** The actor's dispatch: one command is one step of the machine. */
    method Handle(input: Input)
      requires Valid() && !input.cmd.Restart?
      modifies this, store
      ensures Valid() && View() == Step(old(View()), input, self)
    {
      match input.cmd {
        case Announce(id, profile) => OnAnnounce(id, profile);
        case Connected(id, digest) => OnConnected(id, digest);
        case IdentityFrom(id, profile) => OnIdentity(id, profile);
        case PairFrom(id, pair) => OnPairPacket(id, pair, input.env);
        case ConnClosed(id) => OnClosed(id);
        case StartPairing(id) => BeginPairing(id, input.env);
        case PairingAnswer(id, accept) => var _ := AnswerIncomingPairing(id, accept, input.env);
        case PairingTimeout(id) => OnPairingTimeout(id, input.env);
        case Unpair(id) => UnpairDevice(id, input.env);
      }
    }
  }

  /** The actor loop over any list of commands, with restarts: a whole run of the
      program is a run of the machine. */
  method RunDaemon(self: Id, store: Store, inputs: seq<Input>) returns (m: Manager)
    modifies store
    ensures m.Valid() && m.store == store && m.self == self
    ensures m.View() == Run(Load(old(store.rows), self), inputs, self)
    ensures forall id :: id in m.devices ==>
      m.devices[id].pinnedFingerprint == Pin(Run(Load(old(store.rows), self), inputs, self), id)
  {
    m := new Manager(self, store);
    ghost var start := m.View();
    for k := 0 to |inputs|
      invariant fresh(m) && m.Valid() && m.store == store && m.self == self
      invariant m.View() == Run(start, inputs[..k], self)
    {
      assert inputs[..k + 1][..k] == inputs[..k];
      if inputs[k].cmd.Restart? {
        m := new Manager(self, store);
      } else {
        m.Handle(inputs[k]);
      }
    }
    assert inputs[..|inputs|] == inputs;
    forall id | id in m.devices
      ensures m.devices[id].pinnedFingerprint == Pin(m.View(), id)
    {
      m.PinIsField(id);
    }
  }
}
