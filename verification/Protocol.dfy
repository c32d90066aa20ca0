/**
 The messages of the first connection, with its cryptography idealised as terms.

 SPAKE2 with key confirmation (RFC 9382): a MAC, a session key and the hello binding are determined by
 the transcript (code, host ID, both shares). AEAD (RFC 8439): a box opens only under its own key,
 direction and counter. Ed25519 (RFC 8032): a signature verifies only under its signer's key, for the
 fields it covers; module HelloTerms shows that the check of the signed bytes comes to the same.
 */
module Protocol {
  import opened Wrappers

  type Code = c: nat | c < 1_000_000

  const PROTOCOL_VERSION: nat := 1

  /** Who chose a secret: the host, the `i`-th viewer, or whoever runs the signaling relay. */
  datatype Party = HostParty | ViewerParty(i: nat) | RelayParty

  datatype Share = Share(owner: Party, serial: nat) | NotAPoint

  datatype Transcript = Transcript(code: Code, hostId: string, pa: Share, pb: Share)

  datatype Mac = MacA(t: Transcript) | MacB(t: Transcript) | BadMac

  datatype Fingerprint = Fingerprint(owner: Party, serial: nat)

  datatype Sdp = Sdp(fp: Fingerprint) | BadSdp | NotUtf8

  datatype Direction = ViewerToHost | HostToViewer

  datatype Sealed = Sealed(key: Transcript, dir: Direction, counter: nat, body: Sdp) | BadSeal

  datatype DeviceKey = DeviceKey(owner: Party, serial: nat)

  datatype Role = ViewerRole | HostRole

  datatype Signed =
    | ReconnectBytes(key: nat)
    | SessionBytes(role: Role, binding: Transcript, ownFp: Fingerprint, peerFp: Fingerprint, name: string)

  datatype Sig = Sig(signer: DeviceKey, over: Signed) | BadSig

  /** `acceptable`: the fields have the required lengths and the name passes the name check. */
  datatype Hello = Hello(
    version: nat, deviceKey: DeviceKey, name: string, reconnectKey: nat,
    reconnectSig: Sig, sessionSig: Sig, acceptable: bool)

  datatype PeerIdentity = PeerIdentity(deviceKey: DeviceKey, name: string, reconnectKey: nat)

  datatype PakeMsg =
    | Start(pa: Share)
    | Reply(pb: Share, macB: Mac)
    | Confirm(macA: Mac, sealedOffer: Sealed)
    | Answer(sealedAnswer: Sealed)
    | RetryAfter(ms: nat)
    | Rejected

  datatype Payload = Pake(msg: PakeMsg) | Undecodable

  datatype ServerToHost =
    | Challenge
    | Registered
    | ViewerJoined
    | ViewerLeft
    | RelayToHost(payload: Payload)

  datatype HostToServer = HostRelay(msg: PakeMsg) | Kick

  datatype ServerToViewer = Joined | RelayToViewer(payload: Payload) | HostLeft

  datatype RejectReason = Denied | NoResponse | VersionMismatch(hostVersion: nat) | BadIdentity

  datatype Decision = Accepted | Refused(reason: RejectReason)

  datatype Control = HelloMsg(hello: Hello) | DecisionMsg(decision: Decision) | Ping(seqNo: nat) | Pong(seqNo: nat)

  datatype Stage = JoinStage | PakeStage | AnswerStage | ConnectStage | HelloStage | DecisionStage | PingStage

  /** What `recv` on a signaling link gives: a message, nothing in time, or an error. */
  datatype LinkRecv<M> = Got(msg: M) | Quiet | Broken(closed: bool)

  /** `Channel::wait_open`; `OpenFailed` is an error of the transport. */
  datatype Opened = Ready | OpenClosed | OpenTimedOut | OpenFailed

  /** `Channel::next`; `NextFailed` is an error of the transport. */
  datatype Next = Msg(control: Control) | Malformed | Closed | TimedOut | NextFailed

  /** The identity and settings of one device. */
  datatype Device = Device(key: DeviceKey, name: string, reconnectKey: nat, version: nat)

  function IdentityOf(d: Device): PeerIdentity { PeerIdentity(d.key, d.name, d.reconnectKey) }

  function MakeHello(d: Device, role: Role, binding: Transcript, ownFp: Fingerprint, peerFp: Fingerprint): Hello {
    Hello(d.version, d.key, d.name, d.reconnectKey,
          Sig(d.key, ReconnectBytes(d.reconnectKey)),
          Sig(d.key, SessionBytes(role, binding, ownFp, peerFp, d.name)), true)
  }

  function VerifyHello(h: Hello, sender: Role, binding: Transcript, senderFp: Fingerprint, receiverFp: Fingerprint)
    : (r: Option<PeerIdentity>)
  {
    if && h.acceptable
       && h.reconnectSig == Sig(h.deviceKey, ReconnectBytes(h.reconnectKey))
       && h.sessionSig == Sig(h.deviceKey, SessionBytes(sender, binding, senderFp, receiverFp, h.name))
    then Some(PeerIdentity(h.deviceKey, h.name, h.reconnectKey))
    else None
  }
}
