/**
 Device identities: the bytes a device signs, and the check of what another device signed.

 With ideal signatures a signature has exactly one meaning only if the signed bytes do; that is what the
 lemmas here are about.
 */
module Identity {
  import opened Wrappers
  import opened Bytes
  import opened Signatures
  import opened Utf8
  import R = HostRoom

  const RECONNECT_KEY_CONTEXT: seq<byte> := Ascii("simple-remote reconnect key v1")
  const HELLO_CONTEXT: seq<byte> := Ascii("simple-remote hello v1")
  const NAME_MAX_BYTES := 64
  const KEY_BYTES := 32
  const PROTOCOL_VERSION := 1

  datatype Role = Viewer | Host

  function RoleByte(r: Role): byte { if r.Viewer? then 1 else 2 }

  datatype AuthError = Malformed(what: string) | NameTooLong | BadSignature

  /** A signature field of another length than 64 bytes is `None`. */
  datatype Hello = Hello(
    protocolVersion: nat, deviceKey: seq<byte>, deviceName: string, reconnectKey: seq<byte>,
    reconnectKeySig: Option<Signature>, sessionSig: Option<Signature>)

  datatype DeviceKeys = DeviceKeys(public: seq<byte>, reconnect: seq<byte>, name: string)

  datatype PeerIdentity = PeerIdentity(deviceKey: seq<byte>, name: string, reconnectKey: seq<byte>)

  predicate Key(s: seq<byte>) { |s| == KEY_BYTES }

  /** The control characters of Unicode. */
  predicate IsControl(c: char) { (c as int) < 0x20 || 0x7F <= c as int < 0xA0 }

  method CheckDeviceName(name: string) returns (r: Result<(), AuthError>)
    ensures r == DeviceName(name)
  {
    if name == "" || |Encode(name)| > NAME_MAX_BYTES { return Err(NameTooLong); }
    var i := 0;
    while i < |name|
      invariant 0 <= i <= |name|
      invariant forall j :: 0 <= j < i ==> !IsControl(name[j])
    {
      if IsControl(name[i]) { return Err(Malformed("device_name")); }
      i := i + 1;
    }
    return Ok(());
  }

  /** What may be shown in the approval question: 1 to 64 bytes, and no control characters (U+0000-1F, U+007F-9F). */
  predicate FitName(name: string) {
    && 1 <= |Encode(name)| <= 64
    && forall i :: 0 <= i < |name| ==> 0x20 <= name[i] as int && !(0x7F <= name[i] as int <= 0x9F)
  }

  lemma NamesFitExactly(name: string)
    ensures DeviceName(name).Ok? <==> FitName(name)
    ensures DeviceName(name) == Err(NameTooLong) <==> !(1 <= |Encode(name)| <= 64)
  {
    if HasControl(name) {
      var i :| 0 <= i < |name| && IsControl(name[i]);
      assert !(0x20 <= name[i] as int && !(0x7F <= name[i] as int <= 0x9F));
    }
  }

  predicate HasControl(name: string) { exists i :: 0 <= i < |name| && IsControl(name[i]) }

  function DeviceName(name: string): Result<(), AuthError> {
    if name == "" || |Encode(name)| > NAME_MAX_BYTES then Err(NameTooLong)
    else if HasControl(name) then Err(Malformed("device_name"))
    else Ok(())
  }

  // The signed bytes.

  /** A length as 16 bits, which a longer one does not survive, and the bytes themselves. */
  function Field(s: seq<byte>): seq<byte> { U16Be(|s|) + s }

  /** What a session signature says. */
  datatype Statement = Statement(role: Role, binding: seq<byte>, ownFp: seq<byte>, peerFp: seq<byte>, name: seq<byte>)

  function SessionBytes(s: Statement): seq<byte> {
    HELLO_CONTEXT + [RoleByte(s.role)] + s.binding + Field(s.ownFp) + Field(s.peerFp) + Field(s.name)
  }

  function ReconnectBytes(reconnectKey: seq<byte>): seq<byte> { RECONNECT_KEY_CONTEXT + reconnectKey }

  method SessionMessage(s: Statement) returns (msg: seq<byte>)
    ensures msg == SessionBytes(s)
  {
    msg := HELLO_CONTEXT;
    msg := msg + [RoleByte(s.role)];
    msg := msg + s.binding;
    msg := msg + U16Be(|s.ownFp|);
    msg := msg + s.ownFp;
    msg := msg + U16Be(|s.peerFp|);
    msg := msg + s.peerFp;
    msg := msg + U16Be(|s.name|);
    msg := msg + s.name;
    assert HELLO_CONTEXT + [RoleByte(s.role)] + s.binding + U16Be(|s.ownFp|) + s.ownFp
        == HELLO_CONTEXT + [RoleByte(s.role)] + s.binding + Field(s.ownFp);
    assert HELLO_CONTEXT + [RoleByte(s.role)] + s.binding + Field(s.ownFp) + U16Be(|s.peerFp|) + s.peerFp
        == HELLO_CONTEXT + [RoleByte(s.role)] + s.binding + Field(s.ownFp) + Field(s.peerFp);
    assert msg == HELLO_CONTEXT + [RoleByte(s.role)] + s.binding + Field(s.ownFp) + Field(s.peerFp) + Field(s.name);
  }

  predicate Short(s: seq<byte>) { |s| < U16_LIMIT }

  predicate Fits(s: Statement) { Short(s.ownFp) && Short(s.peerFp) && Short(s.name) }

  lemma FieldIsDetermined(a: seq<byte>, b: seq<byte>, x: seq<byte>, y: seq<byte>)
    requires Short(a) && Short(b) && Field(a) + x == Field(b) + y
    ensures a == b && x == y
  {
    var (p, q) := (Field(a) + x, Field(b) + y);
    assert U16Be(|a|) == p[..2] && U16Be(|b|) == q[..2];
    U16BeInjective(|a|, |b|);
    assert a == p[2..2 + |a|] && b == q[2..2 + |b|];
    assert x == p[2 + |a|..] && y == q[2 + |b|..];
  }

  function Fields(s: Statement): seq<byte> { Field(s.ownFp) + (Field(s.peerFp) + Field(s.name)) }

  lemma PartsOf(s: Statement)
    requires Key(s.binding)
    ensures
      var (b, n) := (SessionBytes(s), |HELLO_CONTEXT|);
      && |b| >= n + 33 && b[n] == RoleByte(s.role) && b[n + 1..n + 33] == s.binding && b[n + 33..] == Fields(s)
  {
    assert SessionBytes(s) == HELLO_CONTEXT + [RoleByte(s.role)] + s.binding + Fields(s);
  }

  lemma HeadIsDetermined(s: Statement, t: Statement)
    requires Key(s.binding) && Key(t.binding) && SessionBytes(s) == SessionBytes(t)
    ensures s.role == t.role && s.binding == t.binding && Fields(s) == Fields(t)
  {
    PartsOf(s);
    PartsOf(t);
  }

  /** Signed session bytes determine everything they were made from, if every length fits 16 bits. */
  lemma SessionBytesAreUnambiguous(s: Statement, t: Statement)
    requires Key(s.binding) && Key(t.binding) && Fits(s) && Fits(t)
    requires SessionBytes(s) == SessionBytes(t)
    ensures s == t
  {
    HeadIsDetermined(s, t);
    FieldIsDetermined(s.ownFp, t.ownFp, Field(s.peerFp) + Field(s.name), Field(t.peerFp) + Field(t.name));
    FieldIsDetermined(s.peerFp, t.peerFp, Field(s.name), Field(t.name));
    assert Field(s.name) + [] == Field(t.name) + [];
    FieldIsDetermined(s.name, t.name, [], []);
  }

  function Payload(s: Statement): nat { |s.ownFp| + |s.peerFp| + |s.name| }

  ghost predicate UnambiguousUpTo(n: nat) {
    forall s: Statement, t: Statement | Key(s.binding) && Key(t.binding) && Payload(s) <= n && Payload(t) <= n ::
      SessionBytes(s) == SessionBytes(t) ==> s == t
  }

  function Zeros(n: nat): (r: seq<byte>)
    ensures |r| == n
  {
    seq(n, _ => 0)
  }

  /** Two statements with the same bytes: 65536 zeros as the own fingerprint, or as the peer's. */
  lemma TooLongIsAmbiguous()
    ensures
      var (s, t) := (Statement(Viewer, Zeros(KEY_BYTES), Zeros(U16_LIMIT), [], []),
                     Statement(Viewer, Zeros(KEY_BYTES), [], Zeros(U16_LIMIT), []));
      s != t && SessionBytes(s) == SessionBytes(t)
  {
    var z := Zeros(U16_LIMIT);
    var (s, t) := (Statement(Viewer, Zeros(KEY_BYTES), z, [], []), Statement(Viewer, Zeros(KEY_BYTES), [], z, []));
    assert U16Be(U16_LIMIT) == [0, 0] && U16Be(0) == [0, 0];
    assert Field(z) + Field([]) == Field([]) + Field(z) by {
      assert Field(z) == Zeros(U16_LIMIT + 2);
      assert Field([]) == Zeros(2);
    }
    var head := HELLO_CONTEXT + [RoleByte(Viewer)] + Zeros(KEY_BYTES);
    assert head + Field(z) + Field([]) == head + (Field(z) + Field([]));
    assert head + Field([]) + Field(z) == head + (Field([]) + Field(z));
    assert |s.ownFp| != |t.ownFp|;
  }

  /** The bytes are unambiguous among statements of a bounded length exactly when the bound fits 16 bits. */
  lemma UnambiguousExactly(n: nat)
    ensures UnambiguousUpTo(n) <==> n < U16_LIMIT
  {
    if n < U16_LIMIT {
      forall s: Statement, t: Statement |
        Key(s.binding) && Key(t.binding) && Payload(s) <= n && Payload(t) <= n && SessionBytes(s) == SessionBytes(t)
        ensures s == t
      {
        SessionBytesAreUnambiguous(s, t);
      }
    } else {
      TooLongIsAmbiguous();
    }
  }

  /** Everything a device key ever signs. */
  datatype Said = Session(s: Statement) | Reconnect(key: seq<byte>) | Registration(nonce: seq<byte>, id: seq<byte>)

  function SignedBytes(said: Said): seq<byte> {
    match said
    case Session(s) => SessionBytes(s)
    case Reconnect(key) => ReconnectBytes(key)
    case Registration(nonce, id) => R.AuthMessage(nonce, id)
  }

  predicate WellFormed(said: Said) {
    match said
    case Session(s) => Key(s.binding) && Fits(s)
    case Reconnect(key) => Key(key)
    case Registration(nonce, _) => |nonce| == 32
  }

  /** The contexts part at their fifteenth character. */
  lemma ContextShows(said: Said)
    ensures |SignedBytes(said)| > 14
    ensures SignedBytes(said)[14] == match said
                                     case Session(_) => 'h' as int
                                     case Reconnect(_) => 'r' as int
                                     case Registration(_, _) => 's' as int
  {
    match said
    case Session(s) => assert SessionBytes(s)[14] == HELLO_CONTEXT[14];
    case Reconnect(key) => assert ReconnectBytes(key)[14] == RECONNECT_KEY_CONTEXT[14];
    case Registration(nonce, id) => assert R.AuthMessage(nonce, id)[14] == R.AUTH_PREFIX[14];
  }

  /** The bytes a device signs mean one thing only, within a kind and between kinds. */
  lemma SignedBytesMeanOneThing(a: Said, b: Said)
    requires WellFormed(a) && WellFormed(b) && SignedBytes(a) == SignedBytes(b)
    ensures a == b
  {
    ContextShows(a);
    ContextShows(b);
    match a
    case Session(s) => SessionBytesAreUnambiguous(s, b.s);
    case Reconnect(key) =>
      var n := |RECONNECT_KEY_CONTEXT|;
      assert ReconnectBytes(key)[n..] == key && ReconnectBytes(b.key)[n..] == b.key;
    case Registration(nonce, id) =>
      var n := |R.AUTH_PREFIX|;
      assert R.AuthMessage(nonce, id)[n..n + 32] == nonce && R.AuthMessage(b.nonce, b.id)[n..n + 32] == b.nonce;
      assert R.AuthMessage(nonce, id)[n + 32..] == id && R.AuthMessage(b.nonce, b.id)[n + 32..] == b.id;
  }

  // Making and checking hellos.

  method MakeHello(k: DeviceKeys, role: Role, binding: seq<byte>, ownFp: seq<byte>, peerFp: seq<byte>) returns (h: Hello)
    ensures h == HelloOf(k, Statement(role, binding, ownFp, peerFp, Encode(k.name)))
  {
    var reconnectMsg := RECONNECT_KEY_CONTEXT;
    reconnectMsg := reconnectMsg + k.reconnect;
    var sessionMsg := SessionMessage(Statement(role, binding, ownFp, peerFp, Encode(k.name)));
    return Hello(PROTOCOL_VERSION, k.public, k.name, k.reconnect,
                 Some(SignedBy(k.public, reconnectMsg)), Some(SignedBy(k.public, sessionMsg)));
  }

  function HelloOf(k: DeviceKeys, s: Statement): Hello {
    Hello(PROTOCOL_VERSION, k.public, k.name, k.reconnect,
          Some(SignedBy(k.public, ReconnectBytes(k.reconnect))), Some(SignedBy(k.public, SessionBytes(s))))
  }

  /** `onCurve`: the device key decodes to a curve point. */
  method VerifyHello(h: Hello, onCurve: bool, sender: Role, binding: seq<byte>, senderFp: seq<byte>, receiverFp: seq<byte>)
    returns (r: Result<PeerIdentity, AuthError>)
    ensures r == Verified(h, onCurve, sender, binding, senderFp, receiverFp)
  {
    if |h.deviceKey| != KEY_BYTES { return Err(Malformed("device_key")); }
    if |h.reconnectKey| != KEY_BYTES { return Err(Malformed("reconnect_key")); }
    if h.reconnectKeySig.None? { return Err(Malformed("reconnect_key_sig")); }
    if h.sessionSig.None? { return Err(Malformed("session_sig")); }
    var name := CheckDeviceName(h.deviceName);
    if name.Err? { return Err(name.error); }
    if !onCurve { return Err(Malformed("device_key")); }
    var reconnectMsg := RECONNECT_KEY_CONTEXT;
    reconnectMsg := reconnectMsg + h.reconnectKey;
    if !Verifies(h.deviceKey, reconnectMsg, h.reconnectKeySig.value) { return Err(BadSignature); }
    var sessionMsg := SessionMessage(Statement(sender, binding, senderFp, receiverFp, Encode(h.deviceName)));
    if !Verifies(h.deviceKey, sessionMsg, h.sessionSig.value) { return Err(BadSignature); }
    return Ok(PeerIdentity(h.deviceKey, h.deviceName, h.reconnectKey));
  }

  function Shape(h: Hello, onCurve: bool): Result<(), AuthError> {
    if !Key(h.deviceKey) then Err(Malformed("device_key"))
    else if !Key(h.reconnectKey) then Err(Malformed("reconnect_key"))
    else if h.reconnectKeySig.None? then Err(Malformed("reconnect_key_sig"))
    else if h.sessionSig.None? then Err(Malformed("session_sig"))
    else if DeviceName(h.deviceName).Err? then DeviceName(h.deviceName)
    else if !onCurve then Err(Malformed("device_key"))
    else Ok(())
  }

  /** The check as one condition: the shape first, then both signatures by the device key itself. */
  function Verified(
    h: Hello, onCurve: bool, sender: Role, binding: seq<byte>, senderFp: seq<byte>, receiverFp: seq<byte>)
    : Result<PeerIdentity, AuthError>
  {
    if Shape(h, onCurve).Err? then Err(Shape(h, onCurve).error)
    else if
      && h.reconnectKeySig == Some(SignedBy(h.deviceKey, ReconnectBytes(h.reconnectKey)))
      && h.sessionSig == Some(SignedBy(h.deviceKey, SessionBytes(
                           Statement(sender, binding, senderFp, receiverFp, Encode(h.deviceName)))))
    then Ok(PeerIdentity(h.deviceKey, h.deviceName, h.reconnectKey))
    else Err(BadSignature)
  }

  predicate BothSigned(
    h: Hello, sender: Role, binding: seq<byte>, senderFp: seq<byte>, receiverFp: seq<byte>)
  {
    var s := Statement(sender, binding, senderFp, receiverFp, Encode(h.deviceName));
    && h.reconnectKeySig == Some(SignedBy(h.deviceKey, ReconnectBytes(h.reconnectKey)))
    && h.sessionSig == Some(SignedBy(h.deviceKey, SessionBytes(s)))
  }

  /** Both keys have 32 bytes, and both signatures 64. */
  predicate FitLengths(h: Hello) {
    |h.deviceKey| == 32 && |h.reconnectKey| == 32 && h.reconnectKeySig.Some? && h.sessionSig.Some?
  }

  /** What is wrong with a hello that is refused so: the first of the faults, in the order of the fields. */
  predicate Fault(
    h: Hello, onCurve: bool, sender: Role, binding: seq<byte>, senderFp: seq<byte>, receiverFp: seq<byte>,
    e: AuthError)
  {
    match e
    case Malformed(what) =>
      || (what == "device_key" && (|h.deviceKey| != 32 || (FitLengths(h) && FitName(h.deviceName) && !onCurve)))
      || (what == "reconnect_key" && |h.deviceKey| == 32 && |h.reconnectKey| != 32)
      || (what == "reconnect_key_sig" && |h.deviceKey| == 32 && |h.reconnectKey| == 32 && h.reconnectKeySig.None?)
      || (what == "session_sig" && |h.deviceKey| == 32 && |h.reconnectKey| == 32 && h.reconnectKeySig.Some?
          && h.sessionSig.None?)
      || (what == "device_name" && FitLengths(h) && 1 <= |Encode(h.deviceName)| <= 64 && !FitName(h.deviceName))
    case NameTooLong => FitLengths(h) && !(1 <= |Encode(h.deviceName)| <= 64)
    case BadSignature =>
      && FitLengths(h) && FitName(h.deviceName) && onCurve
      && !BothSigned(h, sender, binding, senderFp, receiverFp)
  }

  /**
   A hello is accepted if and only if its lengths and its name fit, its key is one, and that key signed both
   statements; it then gives what it says of itself. Otherwise it is refused for its first fault.
   */
  lemma VerifiedExactly(
    h: Hello, onCurve: bool, sender: Role, binding: seq<byte>, senderFp: seq<byte>, receiverFp: seq<byte>,
    e: AuthError)
    ensures
      var r := Verified(h, onCurve, sender, binding, senderFp, receiverFp);
      && (r.Ok? <==> FitLengths(h) && FitName(h.deviceName) && onCurve
                     && BothSigned(h, sender, binding, senderFp, receiverFp))
      && (r.Ok? ==> r.value == PeerIdentity(h.deviceKey, h.deviceName, h.reconnectKey) && FitName(r.value.name))
      && (r == Err(e) <==> Fault(h, onCurve, sender, binding, senderFp, receiverFp, e))
  {
    NamesFitExactly(h.deviceName);
  }

  /**
   A hello made by a device passes exactly the check for the same role and binding with the fingerprints seen
   from the other side, and is then taken for that device.
   */
  lemma HelloRoundTrip(
    k: DeviceKeys, s: Statement, sender: Role, binding: seq<byte>, senderFp: seq<byte>, receiverFp: seq<byte>)
    requires Key(k.public) && Key(k.reconnect) && DeviceName(k.name).Ok? && s.name == Encode(k.name)
    requires Key(s.binding) && Key(binding) && Short(s.ownFp) && Short(s.peerFp) && Short(senderFp) && Short(receiverFp)
    ensures
      var r := Verified(HelloOf(k, s), true, sender, binding, senderFp, receiverFp);
      if s == Statement(sender, binding, senderFp, receiverFp, Encode(k.name))
      then r == Ok(PeerIdentity(k.public, k.name, k.reconnect))
      else r == Err(BadSignature)
  {
    var t := Statement(sender, binding, senderFp, receiverFp, Encode(k.name));
    if SessionBytes(s) == SessionBytes(t) { SessionBytesAreUnambiguous(s, t); }
  }

  /**
   Whoever is accepted has said so: if its key signs only well-formed statements, then it signed this session,
   with this role, binding, fingerprints and name, and it signed the reconnect key.
   */
  lemma AcceptedHelloWasMeant(
    h: Hello, onCurve: bool, sender: Role, binding: seq<byte>, senderFp: seq<byte>, receiverFp: seq<byte>,
    said: set<Said>, id: PeerIdentity)
    requires Verified(h, onCurve, sender, binding, senderFp, receiverFp) == Ok(id)
    requires forall x :: x in said ==> WellFormed(x)
    requires forall m :: Some(SignedBy(id.deviceKey, m)) in {h.reconnectKeySig, h.sessionSig} ==>
               exists x :: x in said && SignedBytes(x) == m
    requires Key(binding) && Short(senderFp) && Short(receiverFp)
    ensures Session(Statement(sender, binding, senderFp, receiverFp, Encode(id.name))) in said
    ensures Reconnect(id.reconnectKey) in said
    ensures forall other :: Encode(other) == Encode(id.name) ==> other == id.name
  {
    var s := Statement(sender, binding, senderFp, receiverFp, Encode(h.deviceName));
    assert Some(SignedBy(h.deviceKey, SessionBytes(s))) in {h.reconnectKeySig, h.sessionSig};
    var x :| x in said && SignedBytes(x) == SessionBytes(s);
    SignedBytesMeanOneThing(x, Session(s));
    assert Some(SignedBy(h.deviceKey, ReconnectBytes(h.reconnectKey))) in {h.reconnectKeySig, h.sessionSig};
    var y :| y in said && SignedBytes(y) == ReconnectBytes(h.reconnectKey);
    SignedBytesMeanOneThing(y, Reconnect(h.reconnectKey));
    forall other | Encode(other) == Encode(id.name) ensures other == id.name {
      EncodeIsInjective(other, id.name);
    }
  }
}
