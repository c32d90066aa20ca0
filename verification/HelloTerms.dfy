/**
 The hellos of the first connection as terms (`Protocol`) and as bytes (`Identity`): under any encoding of keys,
 transcripts and fingerprints that confuses none of them, both checks accept the same hellos and name the
 same device, so that what is proved about terms holds of the signed bytes.
 */
module HelloTerms {
  import opened Wrappers
  import opened Bytes
  import opened Signatures
  import opened Utf8
  import P = Protocol
  import I = Identity

  /** How keys, transcripts and fingerprints become bytes. */
  datatype Encoding = Encoding(
    key: P.DeviceKey -> seq<byte>, reconnect: nat -> seq<byte>, binding: P.Transcript -> seq<byte>,
    fp: P.Fingerprint -> seq<byte>)

  /** The terms that occur; there are finitely many, and 32 bytes are enough to tell them apart. */
  datatype Terms = Terms(
    keys: set<P.DeviceKey>, reconnects: set<nat>, bindings: set<P.Transcript>, fps: set<P.Fingerprint>)

  ghost predicate Faithful(e: Encoding, t: Terms) {
    && (forall k :: I.Key(e.key(k))) && (forall a, b :: a in t.keys && b in t.keys && e.key(a) == e.key(b) ==> a == b)
    && (forall k :: I.Key(e.reconnect(k)))
    && (forall a, b :: a in t.reconnects && b in t.reconnects && e.reconnect(a) == e.reconnect(b) ==> a == b)
    && (forall x :: I.Key(e.binding(x)))
    && (forall a, b :: a in t.bindings && b in t.bindings && e.binding(a) == e.binding(b) ==> a == b)
    && (forall f :: I.Short(e.fp(f)))
    && (forall a, b :: a in t.fps && b in t.fps && e.fp(a) == e.fp(b) ==> a == b)
  }

  /** No device signs for a name whose length does not fit 16 bits: none has such a name. */
  predicate Proper(t: Terms, s: P.Signed) {
    match s
    case ReconnectBytes(key) => key in t.reconnects
    case SessionBytes(_, binding, ownFp, peerFp, name) =>
      binding in t.bindings && ownFp in t.fps && peerFp in t.fps && I.Short(Encode(name))
  }

  predicate ProperSig(t: Terms, s: P.Sig) { s.Sig? ==> s.signer in t.keys && Proper(t, s.over) }

  function RoleOf(r: P.Role): I.Role { if r.ViewerRole? then I.Viewer else I.Host }

  function StatementOf(e: Encoding, s: P.Signed): I.Statement
    requires s.SessionBytes?
  {
    I.Statement(RoleOf(s.role), e.binding(s.binding), e.fp(s.ownFp), e.fp(s.peerFp), Encode(s.name))
  }

  function SaidOf(e: Encoding, s: P.Signed): I.Said {
    match s
    case ReconnectBytes(key) => I.Reconnect(e.reconnect(key))
    case SessionBytes(_, _, _, _, _) => I.Session(StatementOf(e, s))
  }

  function SigOf(e: Encoding, s: P.Sig): Option<Signature> {
    match s
    case Sig(signer, over) => Some(SignedBy(e.key(signer), I.SignedBytes(SaidOf(e, over))))
    case BadSig => Some(NotASignature)
  }

  function HelloOf(e: Encoding, h: P.Hello): I.Hello {
    I.Hello(h.version, e.key(h.deviceKey), h.name, e.reconnect(h.reconnectKey),
            SigOf(e, h.reconnectSig), SigOf(e, h.sessionSig))
  }

  /** A signature verifies as bytes exactly when it does as a term. */
  lemma SignaturesAgree(e: Encoding, t: Terms, s: P.Sig, signer: P.DeviceKey, over: P.Signed)
    requires Faithful(e, t) && ProperSig(t, s) && signer in t.keys && Proper(t, over)
    ensures SigOf(e, s) == Some(SignedBy(e.key(signer), I.SignedBytes(SaidOf(e, over)))) <==> s == P.Sig.Sig(signer, over)
  {
    if s.Sig? && I.SignedBytes(SaidOf(e, s.over)) == I.SignedBytes(SaidOf(e, over)) {
      I.SignedBytesMeanOneThing(SaidOf(e, s.over), SaidOf(e, over));
      if over.SessionBytes? { EncodeIsInjective(s.over.name, over.name); }
    }
  }

  lemma HelloChecksAgree(
    e: Encoding, t: Terms, h: P.Hello,
    sender: P.Role, binding: P.Transcript, senderFp: P.Fingerprint, receiverFp: P.Fingerprint)
    requires Faithful(e, t) && ProperSig(t, h.reconnectSig) && ProperSig(t, h.sessionSig)
    requires h.deviceKey in t.keys && h.reconnectKey in t.reconnects
    requires binding in t.bindings && senderFp in t.fps && receiverFp in t.fps
    requires h.acceptable <==> I.DeviceName(h.name).Ok?
    ensures
      var r := I.Verified(HelloOf(e, h), true, RoleOf(sender), e.binding(binding), e.fp(senderFp), e.fp(receiverFp));
      match P.VerifyHello(h, sender, binding, senderFp, receiverFp)
      case Some(id) => r == Ok(I.PeerIdentity(e.key(id.deviceKey), id.name, e.reconnect(id.reconnectKey)))
      case None => r.Err?
  {
    if h.acceptable {
      SignaturesAgree(e, t, h.reconnectSig, h.deviceKey, P.ReconnectBytes(h.reconnectKey));
      SignaturesAgree(e, t, h.sessionSig, h.deviceKey, P.SessionBytes(sender, binding, senderFp, receiverFp, h.name));
    }
  }

  /** And a hello made as a term is the one made as bytes. */
  lemma HelloMakersAgree(
    e: Encoding, d: P.Device, role: P.Role, binding: P.Transcript, ownFp: P.Fingerprint, peerFp: P.Fingerprint)
    requires d.version == P.PROTOCOL_VERSION
    ensures
      HelloOf(e, P.MakeHello(d, role, binding, ownFp, peerFp)) ==
      I.HelloOf(I.DeviceKeys(e.key(d.key), e.reconnect(d.reconnectKey), d.name),
                I.Statement(RoleOf(role), e.binding(binding), e.fp(ownFp), e.fp(peerFp), Encode(d.name)))
  {
  }
}
