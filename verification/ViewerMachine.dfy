/**
 The viewer's side of the first connection as a state machine, in the same style as `HostMachine`.
 `ViewerAgent` is the same behaviour as the program runs it.
 */
module ViewerMachine {
  import opened Wrappers
  import opened Protocol
  import opened HostMachine

  /** The side with the lower version. */
  datatype Side = ViewerSide | HostSide

  datatype ConnectError =
    | WrongCodeGiven
    | RetryLater(ms: nat)
    | HostIsGone
    | RejectedByHost(reason: RejectReason)
    | VersionsDiffer(ours: nat, theirs: nat, older: Side)
    | Expired(stage: Stage)
    | Security(what: string)
    | LinkError
    | TransportError

  type ConnectResult = Result<PeerIdentity, ConnectError>

  datatype ViewerConfig = ViewerConfig(code: Code, hostId: string, device: Device)

  datatype ViewerPc =
    | AwaitJoined
    | AwaitReply(pa: Share)
    | AwaitAnswer(t: Transcript, local: Fingerprint)
    | AwaitChannel(e: Ends)
    | AwaitHostHello(e: Ends)
    | AwaitDecision(e: Ends, host: PeerIdentity)
    | Done(result: ConnectResult)

  datatype ViewerOut = ToRelay(m: PakeMsg) | ToHost(c: Control)

  datatype ViewerEvent =
    | Started(pa: Share)
    | HostMacOk(t: Transcript, local: Fingerprint)
    | Connected(e: Ends)
    | HostHelloOk(e: Ends, host: PeerIdentity)
    | AcceptHeard(e: Ends, host: PeerIdentity)

  /** `said` are the messages it has sent through the relay, `out` those it is about to send. */
  datatype Viewer = Viewer(
    cfg: ViewerConfig, pc: ViewerPc, out: seq<ViewerOut>, said: seq<PakeMsg>, log: seq<ViewerEvent>)

  /** What chance decides: the viewer's share and whether it and the peer could be made, and its fingerprint. */
  datatype ViewerLuck = ViewerLuck(pakeMade: bool, pa: Share, peerMade: bool, offerMade: bool, local: Fingerprint)

  /** What sending on the link gives; a link already closed is not an error there. */
  datatype SendResult = SendOk | SendClosed | SendFailed

  datatype ViewerInput =
    | VHeard(r: LinkRecv<ServerToViewer>, luck: ViewerLuck)
    | VSent(sent: SendResult)
    | VOpenIn(how: Opened, fingerprintKnown: bool)
    | VControlIn(n: Next)

  /** A viewer always announces its own protocol version. */
  function AsViewer(d: Device): Device { d.(version := PROTOCOL_VERSION) }

  function Fail(v: Viewer, e: ConnectError): Viewer { v.(pc := Done(Err(e)), out := []) }

  function FromLink(closed: bool): ConnectError { if closed then HostIsGone else LinkError }

  /** What `recv_relay` makes of anything but a relayed message. */
  function RelayError(r: LinkRecv<ServerToViewer>, stage: Stage): Option<ConnectError> {
    match r
    case Got(RelayToViewer(Pake(_))) => None
    case Got(RelayToViewer(Undecodable)) => Some(Security("malformed relay"))
    case Got(HostLeft) => Some(HostIsGone)
    case Got(Joined) => Some(Security("unexpected signaling"))
    case Quiet => Some(Expired(stage))
    case Broken(closed) => Some(FromLink(closed))
  }

  function HearJoined(v: Viewer, r: LinkRecv<ServerToViewer>, luck: ViewerLuck): Viewer {
    match r
    case Got(Joined) =>
      if !luck.pakeMade then Fail(v, Security("pake start"))
      else v.(pc := AwaitReply(luck.pa), out := [ToRelay(Start(luck.pa))], log := v.log + [Started(luck.pa)])
    case Got(HostLeft) => Fail(v, HostIsGone)
    case Got(RelayToViewer(_)) => Fail(v, Security("unexpected relay"))
    case Quiet => Fail(v, Expired(JoinStage))
    case Broken(closed) => Fail(v, FromLink(closed))
  }

  /** Nothing about the viewer's addresses is sent before the host's MAC has been verified. */
  function HearReply(v: Viewer, pa: Share, m: PakeMsg, luck: ViewerLuck): Viewer {
    match m
    case Reply(pb, macB) =>
      if pb.NotAPoint? then Fail(v, Security("malformed relay"))
      else
        var t := Transcript(v.cfg.code, v.cfg.hostId, pa, pb);
        if macB != MacB(t) then Fail(v, WrongCodeGiven)
        else if !luck.peerMade || !luck.offerMade then Fail(v, TransportError)
        else
          v.(pc := AwaitAnswer(t, luck.local),
             out := [ToRelay(Confirm(MacA(t), Sealed(t, ViewerToHost, 0, Sdp(luck.local))))],
             log := v.log + [HostMacOk(t, luck.local)])
    case RetryAfter(ms) => Fail(v, RetryLater(ms))
    case _ => Fail(v, Security("unexpected relay"))
  }

  function HearAnswer(v: Viewer, t: Transcript, local: Fingerprint, m: PakeMsg): Viewer {
    match m
    case Answer(sealed) =>
      if !(sealed.Sealed? && sealed == Sealed(t, HostToViewer, 0, sealed.body) && !sealed.body.NotUtf8?) then
        Fail(v, Security("sealed answer"))
      else if sealed.body.BadSdp? then Fail(v, TransportError)
      else
        var e := Ends(t, local, sealed.body.fp);
        v.(pc := AwaitChannel(e), log := v.log + [Connected(e)])
    case Rejected => Fail(v, Security("host rejected confirm"))
    case _ => Fail(v, Security("unexpected relay"))
  }

  function VHear(v: Viewer, r: LinkRecv<ServerToViewer>, luck: ViewerLuck): Viewer {
    match v.pc
    case AwaitJoined => HearJoined(v, r, luck)
    case AwaitReply(pa) =>
      (match RelayError(r, PakeStage)
       case Some(e) => Fail(v, e)
       case None => HearReply(v, pa, r.msg.payload.msg, luck))
    case AwaitAnswer(t, local) =>
      (match RelayError(r, AnswerStage)
       case Some(e) => Fail(v, e)
       case None => HearAnswer(v, t, local, r.msg.payload.msg))
    case _ => v
  }

  function VOpening(v: Viewer, how: Opened, fingerprintKnown: bool): Viewer {
    match v.pc
    case AwaitChannel(e) =>
      (match how
       case Ready =>
         if !fingerprintKnown then Fail(v, Security("no remote fingerprint"))
         else
           v.(pc := AwaitHostHello(e),
              out := [ToHost(HelloMsg(MakeHello(AsViewer(v.cfg.device), ViewerRole, e.t, e.local, e.remote)))])
       case OpenClosed => Fail(v, HostIsGone)
       case OpenTimedOut => Fail(v, Expired(ConnectStage))
       case OpenFailed => Fail(v, TransportError))
    case _ => v
  }

  /** What `next_control` makes of anything but a control message. */
  function ControlError(n: Next, stage: Stage): Option<ConnectError> {
    match n
    case Msg(_) => None
    case Malformed => Some(Security("malformed control"))
    case Closed => Some(HostIsGone)
    case TimedOut => Some(Expired(stage))
    case NextFailed => Some(TransportError)
  }

  function HearHostHello(v: Viewer, e: Ends, c: Control): Viewer {
    match c
    case HelloMsg(hello) =>
      (match VerifyHello(hello, HostRole, e.t, e.remote, e.local)
       case None => Fail(v, Security("host identity"))
       case Some(host) => v.(pc := AwaitDecision(e, host), log := v.log + [HostHelloOk(e, host)]))
    case _ => Fail(v, Security("unexpected control"))
  }

  function HearDecision(v: Viewer, e: Ends, host: PeerIdentity, c: Control): Viewer {
    match c
    case DecisionMsg(Accepted) => v.(pc := Done(Ok(host)), log := v.log + [AcceptHeard(e, host)])
    case DecisionMsg(Refused(VersionMismatch(theirs))) =>
      Fail(v, VersionsDiffer(PROTOCOL_VERSION, theirs, if PROTOCOL_VERSION < theirs then ViewerSide else HostSide))
    case DecisionMsg(Refused(reason)) => Fail(v, RejectedByHost(reason))
    case _ => Fail(v, Security("unexpected control"))
  }

  function VHearControl(v: Viewer, n: Next): Viewer {
    match v.pc
    case AwaitHostHello(e) =>
      (match ControlError(n, HelloStage)
       case Some(err) => Fail(v, err)
       case None => HearHostHello(v, e, n.control))
    case AwaitDecision(e, host) =>
      (match ControlError(n, DecisionStage)
       case Some(err) => Fail(v, err)
       case None => HearDecision(v, e, host, n.control))
    case _ => v
  }

  function VSendDone(v: Viewer, how: SendResult): Viewer
    requires v.out != []
  {
    if v.out[0].ToRelay? then
      if how.SendFailed? then Fail(v, LinkError)
      else v.(out := v.out[1..], said := if how.SendOk? then v.said + [v.out[0].m] else v.said)
    else
      if how.SendOk? then v.(out := v.out[1..]) else Fail(v, TransportError)
  }

  predicate VExpects(v: Viewer, i: ViewerInput) {
    match i
    case VHeard(_, _) => v.out == [] && (v.pc.AwaitJoined? || v.pc.AwaitReply? || v.pc.AwaitAnswer?)
    case VSent(_) => v.out != []
    case VOpenIn(_, _) => v.out == [] && v.pc.AwaitChannel?
    case VControlIn(_) => v.out == [] && (v.pc.AwaitHostHello? || v.pc.AwaitDecision?)
  }

  function VStep(v: Viewer, i: ViewerInput): Viewer {
    if !VExpects(v, i) then v
    else
      match i
      case VHeard(r, luck) => VHear(v, r, luck)
      case VSent(sent) => VSendDone(v, sent)
      case VOpenIn(how, known) => VOpening(v, how, known)
      case VControlIn(n) => VHearControl(v, n)
  }

  function VRun(v: Viewer, inputs: seq<ViewerInput>): Viewer {
    if inputs == [] then v else VStep(VRun(v, inputs[..|inputs| - 1]), inputs[|inputs| - 1])
  }

  function VInitial(cfg: ViewerConfig): Viewer { Viewer(cfg, AwaitJoined, [], [], []) }
}
