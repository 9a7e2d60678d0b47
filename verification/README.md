# Handfast in Dafny

Handfast is a KDE Connect-compatible daemon written in Rust. A device-manager
actor owns pairing, pinned certificates and file transfers. Local clients talk to
it over an IPC socket whose replies carry no ids. Peers talk to it over
newline-framed JSON on TLS. This project models the parts whose correctness spans
several functions or a whole run, and proves what they keep.

`dafny verify dfyconfig.toml` checks everything.

## How it is built

| files | what they model |
|---|---|
| `Trust`, `DeviceManager`, `TrustLaws`, `TrustRuns`, `PairingRuns`, `PairingReplies`, `PairingCertificates` | the device-manager actor: `Trust` is its transition function, `DeviceManager` the actor object with its maps and option fields, proved to refine it handler by handler; `TrustLaws` says for each observable which commands change it and to what; the other four prove what holds over every run, with store failures, full queues and restarts as inputs |
| `IpcClient`, `IpcClientProof`, `IpcClientCauses` | concurrent requests on one connection, one atomic step per await point, lock, flag or queue access; whose reply a call gets, and why calls fail |
| `IpcServer`, `IpcServerRuns` | sessions, their writers and the event relay, interleaved; what a client can count on over a whole run |
| `FrameCodec` | the length-prefixed frame codec and its incremental reader |
| `PacketFraming`, `Handshake`, `HandshakeRun` | newline framing, the plaintext reader, the control handshake, and the two-party handshake over bounded channels |
| `FileNames`, `TransferEngine`, `ReceiveEngine`, `Streaming`, `TransferLifecycle`, `TransferContents`, `TransferOutcomes` | file names, the staging engine, the sender and receiver loops, the transfer registry under interleaving, what interleaved transfers leave on disk, and why they end as they do |
| `Supervisor` | retry delays, the watcher loop, the shutdown flag |
| `TuiReducers`, `TuiKeys`, `TuiState` | the terminal interface's reducers, their effect by key and event, and its state object |

Where the source updates an object in place there is a class with the same
fields, and each method's contract says that the abstract view of the object moves
as a function of the old view. The run theorems are about those functions.
Nothing here executes the Rust program.

## What turned out not to hold, and exactly when it does

- **Replies by arrival order.** A call joins the queue before its request is on the
  wire, and two kinds of calls leave their slot there with nothing behind it: one
  whose request cannot be framed (over the 16 MiB cap), whose write lock is released
  before the queue is drained, and one whose future is dropped while its write waits
  for the socket. A caller sent after it can then get the next caller's reply.
  `CrossedReplies` gives a run for every such set of callers (`DroppedWriteCrosses` is
  the instance in which every request fits); `RepliesReachTheirRequests` shows that
  all interleavings are safe if and only if no such call has two framed calls beside it.
- **Both sides write first.** The handshake is described as unable to deadlock.
  `Outcome` tells every stop apart: agreement if and only if the lines are within the
  packet limits and one of the two secure identity lines fits its channel, a deadlock
  with both sides writing if and only if they are within the limits and neither fits,
  failure on both sides otherwise. `BothBlock` carries every run on to such a deadlock,
  and `DeadlockExists` is an instance.
- **The certificate one agreed to.** A request stays open when an unpinned device
  connects again over another certificate. The pin is the certificate that was live
  when the request was made if and only if the last connection since then, if any,
  showed the same one (`PinnedCertificate`); `AnotherIsPinned` is the family in which
  it did not.
- **Two readers, one line.** The plaintext reader refuses a line of exactly
  `MAX_PACKET_LEN` bytes that the packet reader accepts; on lines that start with
  an opening brace they differ nowhere else (`ReadersAgree`).
- **Trailing dots and spaces.** The sanitizer strips them before it truncates to
  240 characters, so truncation can leave one behind and a second pass would change the
  name again, exactly when the cut falls behind one (`TrailersStripped`, with
  `TrailerSurvives` as the instance).
- **No overwrite.** A finished transfer overwrites a file if and only if all 10,000
  candidate names are taken (`Overwrites`); fewer than 10,000 entries rule it out
  (`RoomByPigeonhole`).
- **Memory and store.** They agree in every run without store errors; a failed
  write makes them differ exactly when the step changes a pin (`FailedSave`).
- **A refusal is not a revocation.** A `pair: false` that arrives while a pairing
  request of ours is open is taken as its answer and withdraws nothing; `PinStep`
  states the exact set of steps that change a pin.
- **Shutdown.** A watcher past its loop head when the flag goes up still starts one
  child (`LateChildren`, with `LateChildExists`). The handle of a running child is
  outside the shared slot while the watcher awaits it, so nothing is claimed about
  running children being aborted, although the documentation of `shutdown_all` says so.

## Model

| member | source | states |
|---|---|---|
| Trust.HexByteInjective | crates/daemon/src/device.rs:1310-1312 | two bytes with the same two hex digits are equal |
| Trust.HexInjective | crates/daemon/src/device.rs:1310-1312 | fingerprints are equal only for equal digests, so comparing hex strings compares certificates |
| DeviceManager.Store.UpsertDevice | crates/core/src/store.rs:119-142 | inserts or replaces exactly one row, or nothing when the write fails |
| DeviceManager.Store.ListDevices | crates/core/src/store.rs:90-116 | every row once, with its own content |
| DeviceManager.Manager.constructor | crates/daemon/src/device.rs:338-442 | a new actor, after loading, holds exactly the pins of the stored rows other than its own id |
| DeviceManager.Manager.PinIsField | crates/daemon/src/device.rs:111-125 | the pin the run theorems speak of is the device's own field |
| DeviceManager.Manager.LoadPersisted | crates/daemon/src/device.rs:423-442 | the loop over the rows rebuilds the peer table that `Load` defines, skipping our own id |
| DeviceManager.Manager.SendOut | crates/daemon/src/device.rs:143-151 | a message leaves only towards a connected device with room in its queue |
| DeviceManager.Manager.OnAnnounce | crates/daemon/src/device.rs:591-645 | an announcement creates an unpinned offline device or refreshes the profile, and touches nothing else |
| DeviceManager.Manager.OnConnected | crates/daemon/src/device.rs:647-756 | a pinned device showing another certificate is refused and only reported; otherwise the live certificate is recorded |
| DeviceManager.Manager.OnIdentity | crates/daemon/src/device.rs:995-1003 | an identity packet changes the profile of a known device only |
| DeviceManager.Manager.PersistTrust | crates/daemon/src/device.rs:1254-1286 | trusting a connected device pins its live certificate in memory and store; withdrawing clears both; the fallback for an offline device is stated in full, row included |
| DeviceManager.Manager.RemoveIncoming | crates/daemon/src/device.rs:1176-1182 | takes the parked request out, and says which deadline it had |
| DeviceManager.Manager.OnPairPacket | crates/daemon/src/device.rs:1084-1173 | the whole decision table: answer to our request, revocation, auto-accept, parked request, or a packet without the flag |
| DeviceManager.Manager.ResolvePending | crates/daemon/src/device.rs:1091-1102 | an outstanding request of ours is resolved once, and a yes pins the live certificate |
| DeviceManager.Manager.OnPairRequest | crates/daemon/src/device.rs:1104-1163 | a peer's request is auto-accepted, parked with a deadline, or ignored when the device is not connected |
| DeviceManager.Manager.AnswerIncomingPairing | crates/daemon/src/device.rs:1176-1201 | the reply is told by the parked entry and the clock: none, past its deadline, or in time; an answer in time takes effect and is sent, and the entry goes in every case |
| DeviceManager.Manager.OnPairingTimeout | crates/daemon/src/device.rs:477-485 | the timer removes whatever request is parked and tells the peer no |
| DeviceManager.Manager.BeginPairing | crates/daemon/src/device.rs:1203-1225 | unknown, offline and already paired devices are refused at once; otherwise the request goes out and its reply channel is pending |
| DeviceManager.Manager.AskPeer | crates/daemon/src/device.rs:1203-1225 | a new request replaces a pending one, whose caller is dropped |
| DeviceManager.Manager.UnpairDevice | crates/daemon/src/device.rs:1227-1234 | the peer is told when it is connected, and the pin goes from memory and store |
| DeviceManager.Manager.OnClosed | crates/daemon/src/device.rs:1236-1247 | a closed connection fails the pending caller, drops the parked request and keeps the pin |
| DeviceManager.Manager.Handle | crates/daemon/src/device.rs:445-518 | each command moves the actor as the transition function says and keeps it coherent: outbound if and only if live certificate, online and pinned only to the live one, pending or parked only while online |
| DeviceManager.RunDaemon | crates/daemon/src/device.rs:445-518 | a whole run of the actor object is the run of the transition system, and every device's pin field is the pin of that run, so the theorems below hold of the object's own fields |
| TrustRuns.PinStep | crates/daemon/src/device.rs:1084-1286 | the exact pin law of one step, in memory and in the store: which steps set a pin, to what, which clear it, and that no other step changes it |
| TrustRuns.PairLaw | crates/daemon/src/device.rs:1084-1173 | the pin law of a pair packet |
| TrustRuns.AnswerLaw | crates/daemon/src/device.rs:1176-1201 | the pin law of a user's answer: declining never changes a pin |
| TrustRuns.ConnectedLaw | crates/daemon/src/device.rs:647-756 | connecting never changes a pin |
| TrustRuns.StartLaw | crates/daemon/src/device.rs:1203-1225 | asking never changes a pin |
| TrustRuns.UnpairLaw | crates/daemon/src/device.rs:1227-1286 | unpairing clears the pin of that device and of no other |
| TrustRuns.PinIsStable | crates/daemon/src/device.rs:647-662 | over any run, a pin stays the same until an unpair or a revocation; restarts included, as long as store writes succeed |
| TrustRuns.Consent | crates/daemon/src/device.rs:1091-1201 | every pin in every run goes back to a step of consent, and equals the live certificate at that step |
| TrustRuns.RunAgrees | crates/daemon/src/device.rs:1254-1281 | in every run without store errors each device is pinned to f in memory if and only if its row is paired with f |
| TrustRuns.StepAgrees | crates/daemon/src/device.rs:1254-1281 | one step keeps memory and store in agreement |
| TrustRuns.LoadAgrees | crates/daemon/src/device.rs:423-442 | loading starts in agreement |
| TrustRuns.RestartIsTransparent | crates/daemon/src/device.rs:423-442 | reloading from the store at any point gives back the same pins |
| TrustRuns.FailedSave | crates/daemon/src/device.rs:1254-1286 | with a failing store, memory and store differ after the step if and only if the step changed the pin |
| TrustRuns.LiveStep | crates/daemon/src/device.rs:647-756 | a device is connected only over the certificate it had before the step, or the one a connection just showed |
| TrustRuns.RunReal | crates/daemon/src/device.rs:1254-1267 | no run ever holds an empty or made-up pin or live certificate: the default in `persist_trust` is unreachable |
| TrustRuns.PinningGate | crates/daemon/src/device.rs:647-662 | a pinned device gets online if and only if it shows the certificate that was pinned |
| TrustLaws.UpLaw | crates/daemon/src/device.rs:647-756 | a device is connected after a step exactly if it was and did not close, or just connected over a certificate the pin allows |
| TrustLaws.ProfileLaw | crates/daemon/src/device.rs:591-609 | profiles come from announcements and identity packets alone; a device first met by its connection is a shell |
| TrustLaws.LoadLaw | crates/daemon/src/device.rs:423-442 | a new process knows the stored devices but itself, offline, with the pins of the paired ones, and nothing else |
| TrustLaws.AskedLaw | crates/daemon/src/device.rs:1203-1225 | which steps open and which end a request of ours |
| TrustLaws.ParkedLaw | crates/daemon/src/device.rs:1104-1187 | which steps park a peer's request, with a deadline of thirty seconds, and which end it |
| TrustLaws.SentLaw | crates/daemon/src/device.rs:1104-1234 | exactly which pair packet a command sends, to whom, and what it says |
| TrustLaws.VerdictLaw | crates/daemon/src/device.rs:1091-1225 | exactly what each StartPairing caller hears, and from which command |
| TrustLaws.EventLaw | crates/daemon/src/device.rs:591-756 | exactly what a command publishes |
| TrustLaws.RowLaw | crates/daemon/src/device.rs:1254-1286 | exactly which row a command writes, with the profile, certificate, flag and time |
| PairingRuns.ParkedBy | crates/daemon/src/device.rs:1104-1163 | every parked request came from a pair packet of the run, thirty seconds before its deadline, and kept that deadline |
| PairingRuns.LateAnswer | crates/daemon/src/device.rs:1183-1187 | an answer after the deadline changes nothing but forgets the request |
| PairingRuns.AnswerInTime | crates/daemon/src/device.rs:1176-1201 | in every run, a user's answer takes effect if and only if it comes within 30,000 ms of the packet that asked |
| PairingRuns.SentBy | crates/daemon/src/device.rs:1084-1234 | every packet sent in a run is that of a command of the run: requests and automatic acceptances say yes, expiries and revocations no, answers what the user said |
| PairingRuns.ToldBy | crates/daemon/src/device.rs:1091-1102 | a caller is told yes or no exactly as the peer said it while that caller's request was open |
| PairingCertificates.StandsBecause | crates/daemon/src/device.rs:1084-1225 | a request is open after a step only if it was before or the step made it |
| PairingCertificates.Origin | crates/daemon/src/device.rs:1084-1225 | every open request was made by a step of the run and stood ever since |
| PairingCertificates.LiveIsLastShown | crates/daemon/src/device.rs:726-728 | while a device stays connected its live certificate is the one its last accepted connection showed |
| PairingCertificates.PinnedCertificate | crates/daemon/src/device.rs:1091-1201 | in every run, the certificate a yes pins is the one live when the request was made, if and only if the last connection since then, if any, showed the same one |
| PairingCertificates.AnotherIsPinned | crates/daemon/src/device.rs:726-728 | for any two certificates: asked over one, connected again over the other, accepted, and the other is pinned |
| PairingReplies.StepConserves | crates/daemon/src/device.rs:1084-1252 | each pairing caller's channel is pending on exactly one connected device or resolved exactly once, across every step |
| PairingReplies.StartKeeps | crates/daemon/src/device.rs:1203-1225 | starting a pairing opens one channel and resolves or keeps the others |
| PairingReplies.PairKeeps | crates/daemon/src/device.rs:1084-1173 | a pair packet resolves at most the pending channel of its device |
| PairingReplies.ClosedKeeps | crates/daemon/src/device.rs:1236-1247 | a close resolves the pending channel, so an offline device has none |
| PairingReplies.StepAccounts | crates/daemon/src/device.rs:1091-1201 | answers and expiry notices, plus what is still parked, never exceed the requests shown to the user |
| PairingReplies.RunConserves | crates/daemon/src/device.rs:477-485 | both conservation laws in every run of the daemon |
| IpcClientProof.RunKeeps | crates/ipc/src/client.rs:119-226 | in every interleaving, dropped futures included: one lock holder, nobody forgotten, only doomed calls queued after a drain |
| IpcClientProof.StepKeeps | crates/ipc/src/client.rs:119-226 | every atomic step keeps that invariant |
| IpcClientProof.NobodyHangs | crates/ipc/src/client.rs:55-63 | once the queue was drained every waiting caller has something to receive |
| IpcClientProof.AfterDrain | crates/ipc/src/client.rs:119-158 | after the drain only callers that will return an error can be in the queue |
| IpcClientProof.DoomedStays | crates/ipc/src/client.rs:119-158 | such a caller stays on its way to an error under every step |
| IpcClientProof.AlignedStep | crates/ipc/src/client.rs:119-226 | while all requests can be framed, nothing was drained and no call is dropped before its first byte, queue order is wire order |
| IpcClientProof.HeadIsDue | crates/ipc/src/client.rs:173-226 | the reply the reader holds belongs to the head of the queue |
| IpcClientProof.RunRight | crates/ipc/src/client.rs:119-226 | when all requests can be framed and no call was dropped before its first byte, every channel and every result holds its own caller's reply, in every interleaving |
| IpcClientProof.NeverAnswered | crates/ipc/src/client.rs:119-226 | nothing anywhere is ever a reply to a call that has put nothing on the wire |
| IpcClientProof.AlignedCut | crates/ipc/src/client.rs:126-131 | a write dropped after a byte went out keeps queue and wire in step |
| IpcClientProof.SafeUnlessExposed | crates/ipc/src/client.rs:119-226 | a call that returns Ok returns its own reply, unless a call that may skip its request has two framed calls beside it |
| IpcClientProof.CrossedReplies | crates/ipc/src/client.rs:119-158 | a call that leaves its slot without a request, and two framed ones: an interleaving in which a caller gets the other's reply |
| IpcClientProof.DroppedWriteCrosses | crates/ipc/src/client.rs:126-131 | three callers whose requests all fit, one future dropped in its write, and crossed replies |
| IpcClientProof.LeftoverSlot | crates/ipc/src/client.rs:119-158 | that slot stays at the head of the queue while another caller is already waiting |
| IpcClientProof.RepliesReachTheirRequests | crates/ipc/src/client.rs:119-226 | no interleaving crosses replies if and only if no call that may leave its slot without a request, unframeable or dropped in its write, has two framed calls beside it |
| IpcClientCauses.RunCaused | crates/ipc/src/client.rs:119-158 | in every run no call ends in an error without its cause: an unframeable request, a broken socket, a timeout, a dropped future or a dead connection |
| IpcClientCauses.FailureReleasesAll | crates/ipc/src/client.rs:133-157 | a call that times out or cannot write has failed everybody before it returns: the connection is dead and every waiting caller has something to receive |
| IpcClientCauses.DeadRefuses | crates/ipc/src/client.rs:119-122 | a call that begins on a dead connection never takes the lock, joins the queue or writes |
| IpcClientCauses.ReaderEnds | crates/ipc/src/client.rs:200-226 | a reply nobody waits for, and the end of the stream, mark the connection dead and fail everybody |
| IpcClientCauses.RunQueue | crates/ipc/src/client.rs:126-131 | a call stands in the queue at most once, after it joined and until its channel is used |
| IpcClientCauses.ReplyIsKept | crates/ipc/src/client.rs:147-150 | a reply that reached a call's channel stays there, whoever fails meanwhile, and is what the call returns |
| IpcClientCauses.RunHealthy | crates/ipc/src/client.rs:119-226 | without errors, timeouts, drops or a hang-up the connection never dies |
| IpcClientCauses.EverybodyAnswered | crates/ipc/src/client.rs:119-226 | in such a run, where nothing is left to do every call has returned, with its own reply: no interleaving deadlocks or loses a caller |
| IpcServer.StepKeeps | crates/ipc/src/server.rs:174-275 | every step of relay, session or writer keeps the session invariant |
| IpcServer.RunKeeps | crates/ipc/src/server.rs:174-275 | and so does every interleaving |
| IpcServer.PrefixKinds | crates/ipc/src/server.rs:215-228 | cutting a client's output keeps the order within each kind of frame |
| IpcServer.ClientOutput | crates/ipc/src/server.rs:174-265 | a client's wire holds its handler results in request order, an unbroken window of the relayed events in order, and at most one Hello, before every reply |
| IpcServer.NoGaps | crates/ipc/src/server.rs:174-265 | while the client stays registered and its writer lives, no event and no reply is missing |
| IpcServerRuns.RelayCounts | crates/ipc/src/server.rs:174-191 | the relay takes every event it is not told it missed; without a lag it has relayed the bus up to its place |
| IpcServerRuns.RunServes | crates/ipc/src/server.rs:230-272 | while its writer lives a session is registered exactly from its registration to its teardown |
| IpcServerRuns.RunFaithful | crates/ipc/src/server.rs:247-261 | a session answers the requests it was accepted with and records the handler's own results |
| IpcServerRuns.EndsBecause | crates/ipc/src/server.rs:215-265 | a writer stops only by failing, and a session closes only because its stream ended or its writer failed |
| IpcServerRuns.DeadWriterEnds | crates/ipc/src/server.rs:178-262 | a session whose writer is gone is pruned by the next event and ends at its next reply |
| IpcServerRuns.Registration | crates/ipc/src/server.rs:230-231 | a client's window of events opens where the relay stood when it registered |
| IpcServerRuns.NothingMissing | crates/ipc/src/server.rs:174-265 | in every run an undisturbed client has, written or queued, every event published since it registered (when the relay did not lag) and every result of the handler, in order |
| FrameCodec.LeRoundTrip | crates/ipc/src/codec.rs:24-42 | the four length bytes give the length back |
| FrameCodec.WireFormat | crates/ipc/src/codec.rs:24-42 | the length least significant byte first, then the payload |
| FrameCodec.ScanVerdict | crates/ipc/src/codec.rs:86-116 | refused for the declared length alone, complete exactly when all bytes are there, otherwise more is needed |
| FrameCodec.WriteFrame | crates/ipc/src/codec.rs:24-42 | writes the encoding exactly when the payload is within the cap, and nothing otherwise |
| FrameCodec.Source.ReadBuf | crates/ipc/src/codec.rs:86-116 | its precondition is the memory bound: no read is made with 4 + 16 MiB or more in the buffer |
| FrameCodec.FrameReader.Next | crates/ipc/src/codec.rs:86-116 | for any chunking, yields what scanning the whole undelivered stream yields, and leaves the rest; an oversize header leaves everything in place |
| FrameCodec.ScanPrefix | crates/ipc/src/codec.rs:86-116 | a front complete in the bytes at hand is the front of the stream, whatever follows |
| FrameCodec.ReadAll | crates/ipc/src/server.rs:247-265 | the receive loop returns the frames of the stream and its ending, independent of chunking, and terminates |
| FrameCodec.ScanEncoded | crates/ipc/src/codec.rs:24-116 | scanning an encoded frame gives it back with what follows |
| FrameCodec.RoundTrip | crates/ipc/src/codec.rs:24-116 | any list of payloads within the cap is read back in order, whatever follows |
| FrameCodec.CutStream | crates/ipc/src/codec.rs:86-116 | a stream cut inside a frame yields the frames before it and then the read error |
| FrameCodec.HostileHeader | crates/ipc/src/codec.rs:86-116 | an oversize header after good frames ends the stream with its error, whatever comes behind it |
| PacketFraming.ReadFrame | crates/protocol/src/packet.rs:183-222 | for any chunking, the result is the split of the stream at its first newline, with exactly one byte more consumed; too long, cut off and broken streams give their errors |
| PacketFraming.SplitVerdict | crates/protocol/src/packet.rs:183-222 | a line exactly when a newline stands within the first 524,289 bytes; otherwise the error by length and by how the stream ends |
| PacketFraming.FindNewline | crates/protocol/src/packet.rs:183-222 | the first newline of a chunk |
| PacketFraming.FoundInChunk | crates/protocol/src/packet.rs:183-222 | a newline found in the current chunk is the stream's first one |
| PacketFraming.FloodedChunk | crates/protocol/src/packet.rs:183-222 | a chunk that takes the line past the limit decides the stream already |
| PacketFraming.WritePacket | crates/protocol/src/packet.rs:148-174 | writes the line and its newline exactly when it is within the limit, and nothing otherwise |
| PacketFraming.FrameRoundTrip | crates/protocol/src/packet.rs:148-222 | an encoded line is read back if and only if it is newline-free and within the limit |
| PacketFraming.PipelineRoundTrip | crates/protocol/src/packet.rs:148-222 | a pipeline of packets is read back in order, whatever follows |
| Handshake.ReadPlaintextLine | crates/daemon/src/handshake.rs:50-91 | the byte loop agrees with a split of the stream and leaves it right after the newline |
| Handshake.PlainVerdict | crates/daemon/src/handshake.rs:50-91 | a plaintext line exactly when the stream opens with a brace and has a newline within the first 524,288 bytes; otherwise which error |
| Handshake.ReadersAgree | crates/daemon/src/handshake.rs:50-91 | on lines that start with an opening brace the two readers agree if and only if the newline is not exactly at the limit |
| Handshake.ReadPlaintextIdentity | crates/daemon/src/handshake.rs:50-91 | succeeds if and only if the line decodes to an identity packet, and leaves the following bytes untouched |
| Handshake.Exchange | crates/daemon/src/handshake.rs:95-119 | succeeds if and only if our line fits and the stream's first line is an identity with a device id, which is what it returns; otherwise which error, and what was sent |
| Handshake.AcceptControl | crates/daemon/src/handshake.rs:124-156 | against any peer, a success has a non-empty device id, equal to the plaintext one, with the same protocol version |
| HandshakeRun.StepDecreases | crates/daemon/src/handshake.rs:95-170 | every step of either side brings the handshake nearer its end |
| HandshakeRun.StepKeepsInv | crates/daemon/src/handshake.rs:95-170 | every step keeps the two-party invariant |
| HandshakeRun.RunKeepsInv | crates/daemon/src/handshake.rs:95-170 | every interleaving keeps it and is no longer than the initial measure |
| HandshakeRun.Progress | crates/daemon/src/handshake.rs:95-170 | under the completion condition an unfinished handshake always has a step, so no state has both sides waiting |
| HandshakeRun.Outcome | crates/daemon/src/handshake.rs:95-170 | every interleaving of two honest sides stops; agreement under opposite TLS roles, deadlock in the secure exchange and failure are told apart exactly by the line lengths and the channel capacity |
| HandshakeRun.BothBlock | crates/daemon/src/handshake.rs:95-119 | when the lines are within the limits and neither secure line fits, every run can be carried on to a stop in which both sides are blocked writing |
| HandshakeRun.Stops | crates/daemon/src/handshake.rs:95-170 | every run can be carried on to a stop |
| HandshakeRun.DeadlockExists | crates/daemon/src/handshake.rs:93-100 | an honest pair with one-byte lines and channels that runs into the deadlock |
| FileNames.DecimalRoundTrip | crates/daemon/src/transfer.rs:203-223 | printed numbers parse back |
| FileNames.DecimalInjective | crates/daemon/src/transfer.rs:203-223 | different numbers print differently |
| FileNames.DecimalIsCanonical | crates/daemon/src/transfer.rs:203-223 | digits only and no leading zeros |
| FileNames.CandidateShape | crates/daemon/src/transfer.rs:203-223 | copies of stem.ext are stem (n).ext |
| FileNames.CandidateShapePlain | crates/daemon/src/transfer.rs:203-223 | a name without a dot, or with its only dot in front, gets the number at its end |
| FileNames.CandidateInjective | crates/daemon/src/transfer.rs:203-223 | the plain name and the numbered copies are pairwise distinct, for every name |
| FileNames.CandidatesCount | crates/daemon/src/transfer.rs:203-223 | n candidates are n different names |
| FileNames.SomeCandidateIsFree | crates/daemon/src/transfer.rs:203-223 | fewer than 10,000 taken names leave a candidate free |
| FileNames.SanitizeFileName | crates/daemon/src/transfer.rs:237-262 | computes the sanitized name |
| FileNames.SanitizedIsSafe | crates/daemon/src/transfer.rs:237-262 | for every input: not empty, not a dot name, no separator, no control or hostile character, at most 240 long |
| FileNames.FixedPoints | crates/daemon/src/transfer.rs:237-262 | a name is left alone if and only if it is safe and does not end in a dot or space |
| FileNames.TrailersStripped | crates/daemon/src/transfer.rs:237-262 | the result is clean, and a second pass changes nothing, if and only if the truncation does not fall behind a dot or space |
| FileNames.TrailerSurvives | crates/daemon/src/transfer.rs:237-262 | an input whose sanitized name ends in a dot |
| FileNames.DirectoriesDropped | crates/daemon/src/transfer.rs:237-262 | a clean name behind any directory prefix comes out alone |
| FileNames.LastComponentDecides | crates/daemon/src/transfer.rs:237-245 | the last usable component decides, empty and dot components are skipped, and with none left it is received-file |
| FileNames.CleanAt | crates/daemon/src/transfer.rs:246-253 | characters are kept one by one, but for control characters and the seven reserved ones, which become underscores |
| FileNames.SanitizedComponent | crates/daemon/src/transfer.rs:246-262 | one component: cleaned, its trailing dots and spaces dropped and only those, cut to 240 characters |
| FileNames.CandidateStaysInside | crates/daemon/src/transfer.rs:203-262 | neither numbering nor the part suffix makes a safe name leave the save directory |
| TransferEngine.StartKeeps | crates/daemon/src/transfer.rs:71-111 | starting keeps every part file present, separate and as long as its counter |
| TransferEngine.WriteKeeps | crates/daemon/src/transfer.rs:114-147 | so does a chunk, accepted or refused |
| TransferEngine.FinishKeeps | crates/daemon/src/transfer.rs:150-167 | so does finishing, while a destination is free |
| TransferEngine.AbortKeeps | crates/daemon/src/transfer.rs:170-182 | so does aborting |
| TransferEngine.StartVerdict | crates/daemon/src/transfer.rs:71-111 | a receive starts if and only if its id is new and nobody holds its part file; a refusal changes nothing |
| TransferEngine.WriteVerdict | crates/daemon/src/transfer.rs:114-147 | a chunk is taken if and only if it is at most 64 KiB, its transfer is active and it stays within the announced size; then it is appended |
| TransferEngine.FinishVerdict | crates/daemon/src/transfer.rs:150-167 | a transfer finishes if and only if it is active and complete, or of unknown size |
| TransferEngine.AbortVerdict | crates/daemon/src/transfer.rs:170-182 | an abort removes an active transfer and its part file and nothing else |
| TransferEngine.DestinationIsFree | crates/daemon/src/transfer.rs:203-223 | the destination is unused if and only if some candidate is |
| TransferEngine.FirstFreeIsTaken | crates/daemon/src/transfer.rs:203-223 | a file gets its own name if that is free, and else the first free copy |
| TransferEngine.RoomByPigeonhole | crates/daemon/src/transfer.rs:203-223 | a directory with fewer than 10,000 entries always has room |
| TransferEngine.Isolation | crates/daemon/src/transfer.rs:71-182 | an operation on one transfer leaves every other transfer's entry and part file, and every other file, as they were |
| TransferEngine.StagingOk | crates/daemon/src/transfer.rs:71-182 | over every run of operations an active transfer's part file is the concatenation of its accepted chunks |
| TransferEngine.Finished | crates/daemon/src/transfer.rs:150-167 | a finished transfer's bytes are at the returned name, the first free candidate, the part file is gone and no other file changed |
| TransferEngine.Overwrites | crates/daemon/src/transfer.rs:150-223 | finishing lands on an existing file if and only if all 10,000 candidates are taken |
| ReceiveEngine.FreeDestination | crates/daemon/src/transfer.rs:203-223 | the probing loop returns the plain name when it is free, else the first free candidate, and falls back to the plain name only when all 10,000 are taken |
| ReceiveEngine.Engine.StartReceive | crates/daemon/src/transfer.rs:71-111 | moves the engine and the directory as `Start` says, with its errors |
| ReceiveEngine.Engine.WriteChunk | crates/daemon/src/transfer.rs:114-147 | moves them as `Write` says, counter wrap-around included |
| ReceiveEngine.Engine.FinishReceive | crates/daemon/src/transfer.rs:150-167 | moves them as `Finish` says |
| ReceiveEngine.Engine.AbortReceive | crates/daemon/src/transfer.rs:170-182 | moves them as `Abort` says |
| Streaming.SizeTravels | crates/protocol/src/packet.rs:93-116 | a size up to 2^63-1 survives the header; a larger one arrives as unknown |
| Streaming.StreamOutgoing | crates/daemon/src/device.rs:1323-1366 | terminates; sends a prefix of the file, all of it or at least the announced size unless cancelled; stops for the cancel flag at the turn that finds it; the last report is the bytes sent |
| Streaming.PayloadStream.ReadExact | crates/daemon/src/device.rs:1412-1424 | exactly the next bytes, or end of stream when there are too few |
| Streaming.ChunkAccepted | crates/daemon/src/transfer.rs:114-147 | within a known size the engine accepts every chunk: oversize and overflow are unreachable |
| Streaming.FinishLands | crates/daemon/src/transfer.rs:150-167 | with all the bytes staged, finishing succeeds and lands exactly them |
| Streaming.AbortRestores | crates/daemon/src/transfer.rs:170-182 | aborting undoes a start and every chunk since |
| Streaming.NextChunk | crates/daemon/src/device.rs:1402-1424 | never asks for more than the announced size still allows |
| Streaming.StageStream | crates/daemon/src/device.rs:1393-1444 | stages exactly the wanted bytes, or undoes itself when cancelled, at the turn that finds the flag, or meets an early end; the last report is the bytes staged |
| Streaming.StageLoop | crates/daemon/src/device.rs:1393-1444 | the loop terminates, with the staged bytes and reports at each of its three ends |
| Streaming.ReceiveStream | crates/daemon/src/device.rs:1371-1444 | success lands exactly the announced prefix; without a cancel it succeeds if and only if staging can start and enough bytes arrive; otherwise which error |
| Streaming.ReceiveTask | crates/daemon/src/device.rs:557-587 | after the outcome is handled a failed transfer has left no trace in the engine or the directory |
| Streaming.EndToEnd | crates/daemon/src/device.rs:1323-1444 | for any short reads and any re-chunking by the network the received file equals the source file, under its own name or the first free copy |
| TransferLifecycle.NewIdIsFresh | crates/daemon/src/device.rs:385-388 | the next transfer id was never issued before |
| TransferLifecycle.StepKeeps | crates/daemon/src/device.rs:542-587 | every step of actor or task keeps records, tasks, engine and bus in agreement |
| TransferLifecycle.RunKeeps | crates/daemon/src/device.rs:385-587 | and so does every interleaving |
| TransferLifecycle.WellLived | crates/daemon/src/device.rs:391-993 | every id's events are Added, strictly growing progress within a known incoming size, at most one end matching its record, and success only with all bytes; staging entries belong to active transfers |
| TransferLifecycle.IdsAreFresh | crates/daemon/src/device.rs:385-420 | registration never overwrites a record or meets a staging entry |
| TransferLifecycle.TerminalStays | crates/daemon/src/device.rs:542-587 | terminal states are absorbing |
| TransferContents.EngineMoves | crates/daemon/src/device.rs:557-587 | a run of interleaved tasks is a run of staging operations, one or none to a step |
| TransferContents.PartFiles | crates/daemon/src/device.rs:1388-1444 | in every interleaving of tasks on the shared engine, a running receiver's part file is the concatenation of its own chunks |
| TransferContents.Lands | crates/daemon/src/transfer.rs:150-167 | the end of a receiver's stream puts exactly its chunks under a name that was free, with the announced length |
| TransferContents.StaysLanded | crates/daemon/src/transfer.rs:71-182 | whatever other transfers do later, a landed file stays as it landed |
| TransferContents.FinishedFile | crates/daemon/src/device.rs:937-993 | in every interleaving with room for what lands, a finished incoming transfer has its file: its own chunks, all of them, as many bytes as announced |
| TransferOutcomes.FailedBecause | crates/daemon/src/device.rs:557-587 | in every run a failed transfer has a step that made it fail: no data connection, a task that gave up, an engine that refused, or a file that could not be moved on |
| TransferOutcomes.FinishedBecause | crates/daemon/src/device.rs:557-587 | and a finished one the step that completed it |
| TransferOutcomes.OutcomeTold | crates/daemon/src/device.rs:557-587 | the outcome of an ended task becomes its record's state and its event, and leaves no staging |
| TransferOutcomes.SenderFinishes | crates/daemon/src/device.rs:1354-1359 | a sender that reaches the end of its file is finished, and says so |
| TransferOutcomes.ReceiverFinishes | crates/daemon/src/device.rs:1427-1444 | so is a receiver whose file lands |
| TransferOutcomes.CancelRaisesFlag | crates/daemon/src/device.rs:542-555 | only an active transfer can be cancelled, and cancelling raises its flag alone |
| TransferOutcomes.CancelAborts | crates/daemon/src/device.rs:1397-1401 | a cancelled receiver drops its staging by itself |
| TransferOutcomes.RegisteredBy | crates/daemon/src/device.rs:391-420 | every record was registered by a step of the run with its direction and size, and only a cancel raises its flag |
| TransferOutcomes.ReportsCount | crates/daemon/src/device.rs:1347-1353 | a running task's last report is what it put out or was handed so far |
| Supervisor.BackoffClosedForm | crates/core/src/supervise.rs:84-87 | for every failure count the delay is min(30000, 100 * 2^(max(n,1)-1)) ms: clamp, saturation and counter width never show |
| Supervisor.BackoffMonotone | crates/core/src/supervise.rs:84-87 | the delay never shrinks, lies between 100 ms and 30 s, and is the cap exactly from the tenth failure on |
| Supervisor.Inner.BumpRestarts | crates/core/src/supervise.rs:67-72 | counts one restart of that name and of no other |
| Supervisor.Inner.ScheduleRetry | crates/core/src/supervise.rs:239-262 | the saturating counter and the delay follow the streak of quick crashes |
| Supervisor.OneTurn | crates/core/src/supervise.rs:208-262 | a turn is retried exactly when the child failed or panicked with the flag down; a crash met with the flag up is reported only |
| Supervisor.WatchLoop | crates/core/src/supervise.rs:200-264 | the delays slept, the children started, the restart counter and the log over any sequence of child endings |
| Supervisor.DelaysAt | crates/core/src/supervise.rs:239-262 | the delay of each retried turn depends on its streak alone |
| Supervisor.DelayOfStreak | crates/core/src/supervise.rs:239-262 | the (m+1)-th quick crash in a row sleeps min(30000, 100 * 2^m) ms; a crash after a healthy stretch sleeps 100 ms |
| Supervisor.LateChildren | crates/core/src/supervise.rs:117-264 | in every interleaving a watcher starts at most one child after the flag went up, and only if it was past its loop head then |
| Supervisor.LateChildExists | crates/core/src/supervise.rs:208-217 | the bound is reached |
| Supervisor.KeepsRestarting | crates/core/src/supervise.rs:208-262 | while the flag is down a watcher whose child crashes starts another |
| Supervisor.CleanEndIsFinal | crates/core/src/supervise.rs:225-233 | a watcher whose child ended cleanly is gone and stays so |
| Supervisor.WatchersDrain | crates/core/src/supervise.rs:169-264 | under a raised flag a watcher takes at most three more steps, and no new spawn gets in |
| TuiReducers.TabsCycle | crates/tui/src/state.rs:60-73 | next and previous undo each other and five steps come back |
| TuiReducers.LastLast | crates/tui/src/state.rs:644-658 | capping after every push keeps what capping once at the end would |
| TuiReducers.RunKeeps | crates/tui/src/state.rs:217-658 | after any inputs every cursor is in range or zero, and the detail and reply flags match their targets |
| TuiReducers.KeyKeeps | crates/tui/src/state.rs:320-418 | no key breaks that or touches the log and notification buffers |
| TuiReducers.LogsAreTheLast | crates/tui/src/state.rs:644-649 | the log is the last 1000 lines ever pushed |
| TuiReducers.NotificationsAreTheLast | crates/tui/src/state.rs:298-316 | notifications are the last 200 of the latest snapshot and the arrivals since |
| TuiReducers.OpenSince | crates/tui/src/state.rs:457-522 | an open modal has the target and the text of the input that opened it and of the keys since |
| TuiReducers.ReplyReachesItsNotification | crates/tui/src/state.rs:457-522 | a submitted reply carries the id selected when its modal opened and the trimmed text typed since, whatever arrived in between |
| TuiKeys.QuitKeys | crates/tui/src/state.rs:320-337 | exactly which keys quit |
| TuiKeys.PairKeys | crates/tui/src/state.rs:382-399 | p and u, and nothing else, pair and unpair, and only the device under the cursor |
| TuiKeys.PanelKeys | crates/tui/src/state.rs:422-453 | Enter opens the panel of the device under the cursor and closes it, and so does Esc |
| TuiKeys.ToggleKey | crates/tui/src/state.rs:401-416 | space asks for the opposite of the plugin under the cursor, on the panel's device |
| TuiKeys.ModalTakesAll | crates/tui/src/state.rs:332-334 | while a reply is written no other key does anything |
| TuiKeys.EditingKeys | crates/tui/src/state.rs:479-497 | a character goes to the end of the draft and Backspace takes it off again |
| TuiKeys.ReplyKey | crates/tui/src/state.rs:457-473 | the reply key opens the modal on the notification under the cursor, and only there |
| TuiKeys.MovesOneRow | crates/tui/src/state.rs:595-612 | one row down or up in the focused list, stopping at the ends; other cursors stay |
| TuiKeys.JumpsToTheEnd | crates/tui/src/state.rs:615-631 | first or last row of the focused list; other cursors stay |
| TuiKeys.ArrowKeys | crates/tui/src/state.rs:355-370 | which keys move and jump |
| TuiKeys.TabKeys | crates/tui/src/state.rs:343-354 | Tab and its reverse change the tab alone and undo each other |
| TuiKeys.HelpKeys | crates/tui/src/state.rs:338-342 | the overlay is flipped by its key and closed first by Esc |
| TuiKeys.ClampsExactly | crates/tui/src/state.rs:634-639 | a cursor still in its list stays, another goes to the last row |
| TuiKeys.FoundDevice | crates/tui/src/model.rs:47-52 | a device found again is replaced where it stands, a new one goes to the end |
| TuiKeys.WithoutAppend | crates/tui/src/state.rs:229-230 | a removal keeps the order of the rest |
| TuiKeys.LostDevice | crates/tui/src/state.rs:229-234 | a lost device goes, and its panel with it |
| TuiKeys.ChangedDevice | crates/tui/src/model.rs:41-44 | a state change reaches the device of that id, paired exactly while the state says so |
| TuiKeys.TransferRows | crates/tui/src/state.rs:240-265 | rows appear with their first event, carry the counters last reported, and are full once finished |
| TuiKeys.Snapshots | crates/tui/src/state.rs:298-316 | plugins are shown for the open panel's device alone; device lists replace |
| TuiKeys.LogLineShape | crates/tui/src/state.rs:644-645 | the level padded to five, in brackets, and the message |
| TuiState.Cap | crates/tui/src/state.rs:644-658 | the dropping loop leaves the last entries |
| TuiState.Find | crates/tui/src/model.rs:47-52 | the first device with the id |
| TuiState.Retain | crates/tui/src/state.rs:232-237 | exactly the other devices, in order |
| TuiState.State.ApplyEvent | crates/tui/src/state.rs:217-294 | moves the state object as the event reducer says |
| TuiState.State.ApplyOutcome | crates/tui/src/state.rs:298-316 | moves it as the outcome reducer says |
| TuiState.State.HandleKey | crates/tui/src/state.rs:320-418 | moves it, and asks for the action, as the key reducer says |
| TuiState.State.MoveCursor | crates/tui/src/state.rs:595-612 | steps the focused cursor within its list |
| TuiState.State.JumpCursor | crates/tui/src/state.rs:615-631 | first or last row of the focused list |
| TuiState.State.ClampCursors | crates/tui/src/state.rs:634-639 | every cursor back into its list |
| TuiState.Session | crates/tui/src/state.rs:217-658 | a whole session on the object ends in the reducers' run, with its invariant and buffers |

## Left out

- TLS, certificates, SHA-256 and sockets: a connection is an ordered byte channel with a 32-byte peer digest, and TLS is a rendezvous of opposite roles that may fail.
- JSON printing and parsing: encoded packets are byte strings, decoding is a parameter, and the tags of events and responses are disjoint constructors.
- Real time: deadlines, timers and timeouts are inputs or steps that may happen at any moment; connection and payload read timeouts fail like I/O errors.
- SQLite, WAL and fsync: the store is a keyed table whose writes succeed or fail as a whole; `delete_device`, `kv_get` and `kv_set` are not modelled, and the auto-accept setting is an input.
- File system faults: apart from missing or already existing files, file operations succeed; names differ only if their characters do, and nobody else writes to the save directory during a transfer.
- The actor and the other tasks as threads: the actor takes one command at a time, as its loop does; the client, the server, the handshake and the transfer tasks are interleaved as atomic steps on values, so aliasing of their shared objects is not modelled.
- IpcClientProof.RepliesReachTheirRequests: behind part of a frame the server is taken to understand nothing more on that connection, because undoing the misalignment takes bytes that happen to form a frame.
- DeviceManager.Store.ListDevices: the order by identifier is not stated, because nothing depends on it.
- DeviceManager.Manager.LoadPersisted: a failing read of the table, which ends the daemon's start, is not modelled.
- DeviceManager.Manager.OnAnnounce: the address and the dial that follows are not modelled; a dial that succeeds is a `Connected` command.
- DeviceManager.Manager.OnConnected: the spawned reader and writer are not modelled; what they read arrives as commands, in any order.
- DeviceManager.Manager.Handle: the list, share and transfer commands are not among its commands; they touch no trust and are modelled in `TransferLifecycle`.
- DeviceManager.RunDaemon: its runs are over the same commands as `Handle`.
- FrameCodec.WriteFrame: a failing socket write is not modelled here; it is a step in `IpcClient`.
- PacketFraming.WritePacket: a failing write of the transport is not modelled.
- Handshake.ReadPlaintextLine: the timeout and socket errors are not modelled; they fail the handshake.
- Handshake.ReadPlaintextIdentity: the same.
- Handshake.Exchange: write failures and the read timeout are not modelled; there is no timeout on the write.
- Streaming.StreamOutgoing: the payload listener's accept, I/O errors and the removal of a temporary source file are not modelled.
- Streaming.ReceiveTask: one task alone on the engine; `TransferContents` has the tasks interleaved.
- Streaming.EndToEnd: one transfer alone on the engine; `TransferContents` has the tasks interleaved.
- Streaming.ReceiveStream: one task alone on the engine, and only local save directories; moving a finished file into a GVFS or KIO location appears in `TransferLifecycle` as a step that may fail.
- Streaming.StageStream: one task alone on the engine and no read timeout; the progress counter is unbounded, where the source's wraps after 2^64 bytes of a stream of unknown size.
- TransferLifecycle.WellLived: the `done` and `reason` fields of a record and the final share event are not modelled; restart is not, since the registry is not stored.
- PairingReplies.RunConserves: a restart drops pending callers with the process, and the counts start over.
- Supervisor.WatchLoop: restart counters are unbounded; replacing a name's previous generation appears only as an abort of its watcher.
- TuiState.State.ApplyOutcome: the footer message is display only and not modelled.
- TuiState.State.HandleKey: the redraw flag is display only and not modelled.
- TuiState.State.ApplyEvent: the footer message, clipboard, daemon identity, redraw, quit and shutdown flags are display only and not modelled.
- Discovery, plugins, the sftp manager, D-Bus, battery, clipboard and input backends, the graphical interface, drawing and the command line: plumbing, or one-branch code whose properties are settled by reading it.
