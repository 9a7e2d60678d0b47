/** The control-plane handshake (crates/daemon/src/handshake.rs and the role
    convention of crates/daemon/src/tls.rs). JSON decoding and TLS are library
    code: decoding is a function parameter, and TLS is a rendezvous of opposite
    roles that fails when raw bytes of the plaintext stage are left over. */
module Handshake {
  import opened Prelude
  import Framing = PacketFraming

  const MAX_PACKET_LEN := Framing.MAX_PACKET_LEN
  const OPEN_BRACE: byte := 123

  datatype Identity = Identity(deviceId: string, version: nat)

  /** What the JSON library makes of one line. */
  datatype Decoded = Malformed | OtherPacket | BadBody | Announces(identity: Identity)

  type Decoder = Bytes -> Decoded

  datatype Error =
    | Closed
    | NotPlaintext
    | LineTooLong
    | BadPacket
    | LacksDeviceId
    | DeviceIdChanged
    | VersionChanged
    | TlsFailed
    | ReadFailed(error: Framing.Error)

  // ---- stage 1: the byte-by-byte plaintext line --------------------------

  datatype PlainSplit = PlainLine(text: Bytes, rest: Bytes) | PlainFailed(error: Error)

  /** The specification of the plaintext read, as a split of the whole stream. */
  function SplitPlain(s: Bytes): PlainSplit {
    var i := Framing.FirstNewline(s);
    if s == [] then PlainFailed(Closed)
    else if s[0] != OPEN_BRACE then PlainFailed(NotPlaintext)
    else if i < |s| && i < MAX_PACKET_LEN then PlainLine(s[..i], s[i + 1..])
    else if |s| > MAX_PACKET_LEN then PlainFailed(LineTooLong)
    else PlainFailed(Closed)
  }

  /** A plaintext line is read exactly when the stream opens with a brace (byte 123) and
      its first newline (byte 10) stands within the first 524,288 bytes. Anything that
      opens otherwise is refused at once, a longer line as too long, and a stream that
      ends before as closed. */
  lemma PlainVerdict(s: Bytes)
    ensures s != [] && s[0] != 123 ==> SplitPlain(s) == PlainFailed(NotPlaintext)
    ensures s != [] && s[0] == 123 ==>
      && (forall i :: 0 <= i < |s| && i < 524_288 && s[i] == 10 && 10 !in s[..i] ==> SplitPlain(s) == PlainLine(s[..i], s[i + 1..]))
      && (|s| > 524_288 && 10 !in s[..524_288] ==> SplitPlain(s) == PlainFailed(LineTooLong))
      && (|s| <= 524_288 && 10 !in s ==> SplitPlain(s) == PlainFailed(Closed))
    ensures s == [] ==> SplitPlain(s) == PlainFailed(Closed)
  {
    forall i | 0 <= i < |s| && s[i] == 10 && 10 !in s[..i]
      ensures Framing.FirstNewline(s) == i
    {
      assert Framing.NoNewline(s[..i]);
      Framing.FirstNewlineIs(s, i);
    }
    if |s| > 524_288 && 10 !in s[..524_288] {
      assert forall j :: 0 <= j < 524_288 ==> s[..524_288][j] == s[j];
    }
  }

  /** A raw socket: the bytes the peer sends before it closes. */
  class TcpStream {
    var data: Bytes

    constructor (data: Bytes)
      ensures this.data == data
    {
      this.data := data;
    }

    method ReadByte() returns (b: Option<byte>)
      modifies this
      ensures old(data) == [] ==> b == None && data == []
      ensures old(data) != [] ==> b == Some(old(data)[0]) && data == old(data)[1..]
    {
      if data == [] {
        return None;
      }
      b := Some(data[0]);
      data := data[1..];
    }
  }

  /** On success the stream stands exactly after the newline: no byte of the TLS
      handshake that follows has been taken. */
  method ReadPlaintextLine(tcp: TcpStream) returns (r: Result<Bytes, Error>)
    modifies tcp
    ensures match SplitPlain(old(tcp.data))
            case PlainLine(text, rest) => r == Ok(text) && tcp.data == rest
            case PlainFailed(error) => r == Err(error)
  {
    var line: Bytes := [];
    var first := true;
    ghost var all := tcp.data;
    while true
      invariant |line| <= |all| && line == all[..|line|] && tcp.data == all[|line|..]
      invariant Framing.NoNewline(line) && |line| <= MAX_PACKET_LEN
      invariant first <==> line == []
      invariant line != [] ==> line[0] == OPEN_BRACE
      decreases |tcp.data|
    {
      Framing.NewlinePastPrefix(line, tcp.data);
      assert all == line + tcp.data;
      var byte := tcp.ReadByte();
      if byte == None {
        return Err(Closed);
      }
      if first {
        if byte.value != OPEN_BRACE {
          return Err(NotPlaintext);
        }
        first := false;
      }
      if |line| >= MAX_PACKET_LEN {
        return Err(LineTooLong);
      }
      if byte.value == NEWLINE {
        return Ok(line);
      }
      line := line + [byte.value];
    }
  }

  /** The plaintext reader and the packet reader agree on a stream that starts
      with `{` exactly when its first newline is not at the cap itself: a line of
      exactly MAX_PACKET_LEN bytes passes the packet reader and the encoder, and
      is refused in the plaintext stage. */
  lemma ReadersAgree(s: Bytes)
    requires s != [] && s[0] == OPEN_BRACE
    ensures var i := Framing.FirstNewline(s);
            (match (SplitPlain(s), Framing.SplitLine(s, false))
             case (PlainLine(t, r), Line(t', r')) => t == t' && r == r'
             case (PlainFailed(_), Failed(_)) => true
             case _ => false)
            <==> !(i == MAX_PACKET_LEN && i < |s|)
  {
  }

  // ---- stages 2 and 3 against an arbitrary peer --------------------------

  function CrossCheck(plain: Identity, secure: Identity): Result<(), Error> {
    if plain.deviceId != secure.deviceId then Err(DeviceIdChanged)
    else if plain.version != secure.version then Err(VersionChanged)
    else Ok(())
  }

  method ReadPlaintextIdentity(tcp: TcpStream, decode: Decoder) returns (r: Result<Identity, Error>)
    modifies tcp
    ensures r.Ok? <==> SplitPlain(old(tcp.data)).PlainLine? && decode(SplitPlain(old(tcp.data)).text).Announces?
    ensures r.Ok? ==> var line := SplitPlain(old(tcp.data));
                      decode(line.text) == Announces(r.value) && tcp.data == line.rest
    ensures r.Err? ==> r.error == match SplitPlain(old(tcp.data)) case PlainFailed(e) => e case _ => BadPacket
  {
    var line := ReadPlaintextLine(tcp);
    if line.Err? {
      return Err(line.error);
    }
    match decode(line.value) {
      case Announces(identity) => return Ok(identity);
      case _ => return Err(BadPacket);
    }
  }

  /** The peer identity that an encrypted stream announces, if it does. */
  function SecureIdentity(stream: Bytes, broken: bool, decode: Decoder): Option<Identity> {
    match Framing.SplitLine(stream, broken)
    case Line(text, _) =>
      (match decode(text)
       case Announces(identity) => if identity.deviceId == "" then None else Some(identity)
       case _ => None)
    case Failed(_) => None
  }

  /** Write mine, then read theirs. */
  method Exchange(out: Sink, inp: Framing.BufReader, mine: Bytes, decode: Decoder) returns (r: Result<Identity, Error>)
    requires NonEmptyChunks(inp.chunks)
    modifies out, inp
    ensures out.sent == old(out.sent) + if |mine| <= 524_288 then Framing.Encode(mine) else []
    ensures |mine| > 524_288 ==> r == Err(LineTooLong) && inp.chunks == old(inp.chunks)
    ensures |mine| <= 524_288 && r.Err? ==>
      match Framing.SplitLine(Flatten(old(inp.chunks)), inp.broken)
      case Failed(e) => r.error == ReadFailed(e)
      case Line(text, _) => r.error == if decode(text).Announces? then LacksDeviceId else BadPacket
    ensures r.Ok? <==> |mine| <= MAX_PACKET_LEN
                       && SecureIdentity(Flatten(old(inp.chunks)), inp.broken, decode).Some?
    ensures r.Ok? ==> SecureIdentity(Flatten(old(inp.chunks)), inp.broken, decode) == Some(r.value)
  {
    var written := Framing.WritePacket(out, mine);
    if written.Err? {
      return Err(LineTooLong);
    }
    var line := Framing.ReadFrame(inp);
    if line.Err? {
      return Err(ReadFailed(line.error));
    }
    match decode(line.value) {
      case Announces(theirs) =>
        if theirs.deviceId == "" {
          return Err(LacksDeviceId);
        }
        return Ok(theirs);
      case _ => return Err(BadPacket);
    }
  }

  /** Whatever the peer sends: an accept succeeds only with a non-empty device id
      that both identities carry, at one protocol version, and only when TLS
      began right behind the plaintext line. */
  method AcceptControl(tcp: TcpStream, tls: Bytes -> bool, out: Sink, inp: Framing.BufReader, mine: Bytes, decode: Decoder)
    returns (r: Result<Identity, Error>)
    requires NonEmptyChunks(inp.chunks)
    modifies tcp, out, inp
    ensures r.Ok? ==>
      var line := SplitPlain(old(tcp.data));
      && line.PlainLine? && decode(line.text).Announces?
      && tls(line.rest)
      && r.value.deviceId != ""
      && r.value.deviceId == decode(line.text).identity.deviceId
      && r.value.version == decode(line.text).identity.version
      && SecureIdentity(Flatten(old(inp.chunks)), inp.broken, decode) == Some(r.value)
    ensures r.Err? ==>
      var line := SplitPlain(old(tcp.data));
      var secure := SecureIdentity(Flatten(old(inp.chunks)), inp.broken, decode);
      || line.PlainFailed? || !decode(line.text).Announces? || !tls(line.rest)
      || |mine| > MAX_PACKET_LEN || secure == None
      || (decode(line.text).identity.deviceId != secure.value.deviceId && r.error == DeviceIdChanged)
      || (decode(line.text).identity.version != secure.value.version && r.error == VersionChanged)
  {
    var plain := ReadPlaintextIdentity(tcp, decode);
    if plain.Err? {
      return Err(plain.error);
    }
    if !tls(tcp.data) {
      return Err(TlsFailed);
    }
    var secure := Exchange(out, inp, mine, decode);
    if secure.Err? {
      return Err(secure.error);
    }
    var checked := CrossCheck(plain.value, secure.value);
    if checked.Err? {
      return Err(checked.error);
    }
    return Ok(secure.value);
  }
}
