/**
 The host's side of the first connection as a state machine: one input per result it waits for, and one
 per message it sends, so that anything else may happen between any two of them.

 `HostAgent` is the same behaviour as the program runs it; it is proved to take exactly these steps.
 */
module HostMachine {
  import opened Wrappers
  import opened Protocol
  import L = Limiter

  datatype AttemptFailure =
    | WaitRequired | NoConfirm | WrongCode | MalformedMsg | Timeout(stage: Stage)
    | DeniedByUser | WrongVersion | BadViewerIdentity | TransportFailure

  /** How `serve_next` ends. `LinkLost` is its error: signaling itself broke. */
  datatype Outcome = Session(viewer: PeerIdentity) | Failed(failure: AttemptFailure) | ViewerGone | LinkLost

  datatype HostConfig = HostConfig(hostId: string, device: Device, signalingStep: nat, connect: nat, approval: nat)

  /** The two ends of a data channel, and the transcript whose keys protected its set-up. */
  datatype Ends = Ends(t: Transcript, local: Fingerprint, remote: Fingerprint)

  datatype Pc =
    | Idle
    | AwaitStart
    | AwaitConfirm(t: Transcript)
    | AwaitOpen(e: Ends)
    | AwaitHello(e: Ends)
    | Asking(e: Ends, viewer: PeerIdentity, deadline: nat)
    | Listening(e: Ends, viewer: PeerIdentity, deadline: nat)
    | Granting(e: Ends, viewer: PeerIdentity)
    | Refusing(e: Ends, failure: AttemptFailure)
    | Lingering(failure: AttemptFailure, deadline: nat)
    | Finished(outcome: Outcome)

  datatype Out = ToServer(m: HostToServer) | ToPeer(c: Control)

  /** What the host has done, in order; `draw` numbers the one-time codes it generated. */
  datatype HostEvent =
    | Began(at: nat)
    | Replied(t: Transcript, at: nat, draw: nat)
    | MacOk(t: Transcript)
    | Answered(e: Ends)
    | HelloOk(e: Ends, viewer: PeerIdentity, hello: Hello)
    | Granted(e: Ends, viewer: PeerIdentity)
    | AcceptSent(e: Ends, viewer: PeerIdentity)

  /**
   `out` are the messages the host is about to send; `said` those it sent to signaling since `serve_next`
   was called. `code` is the current one-time code, the `draws`-th one generated.
   */
  datatype Host = Host(
    cfg: HostConfig, pc: Pc, out: seq<Out>, code: Code, draws: nat, limiter: L.Limits, now: nat,
    said: seq<HostToServer>, log: seq<HostEvent>)

  /** What chance decides: the host's share, the next code, whether a peer can be made, and its fingerprint. */
  datatype Luck = Luck(pb: Share, code: Code, peerMade: bool, local: Fingerprint)

  datatype Input =
    | Heard(r: LinkRecv<ServerToHost>, at: nat, luck: Luck)
    | Sent(ok: bool, at: nat, luck: Luck)
    | OpenIn(how: Opened, fingerprintKnown: bool, at: nat)
    | ControlIn(n: Next, at: nat)
    | ApprovalIn(answer: Option<bool>, at: nat)
    | Again

  function Kicked(h: Host, f: AttemptFailure): Host { h.(pc := Finished(Failed(f)), out := [ToServer(Kick)]) }

  function RejectRelay(h: Host, f: AttemptFailure): Host {
    h.(pc := Finished(Failed(f)), out := [ToServer(HostRelay(Rejected)), ToServer(Kick)])
  }

  /** Tells the viewer why over the data channel, before it is kicked. */
  function Refuse(h: Host, e: Ends, reason: RejectReason, f: AttemptFailure): Host {
    h.(pc := Refusing(e, f), out := [ToPeer(DecisionMsg(Refused(reason)))])
  }

  function Begin(h: Host, at: nat): Host {
    var h1 := h.(log := h.log + [Began(at)]);
    match L.Check(h.limiter, at)
    case Err(left) =>
      h1.(pc := Finished(Failed(WaitRequired)),
          out := [ToServer(HostRelay(RetryAfter(L.WaitMillis(left)))), ToServer(Kick)])
    case Ok(_) => h1.(pc := AwaitStart)
  }

  /** Answers a `Start`: the failure is recorded before the reply is sent, and undone only by a correct MAC. */
  function Respond(h: Host, pa: Share, at: nat, luck: Luck): Host {
    var t := Transcript(h.code, h.cfg.hostId, pa, luck.pb);
    var (limiter, rotate) := L.Failed(h.limiter, at);
    h.(limiter := limiter,
       code := if rotate then luck.code else h.code,
       draws := if rotate then h.draws + 1 else h.draws,
       out := [ToServer(HostRelay(Reply(luck.pb, MacB(t))))],
       pc := AwaitConfirm(t),
       log := h.log + [Replied(t, at, h.draws)])
  }

  function HearStart(h: Host, r: LinkRecv<ServerToHost>, at: nat, luck: Luck): Host {
    match r
    case Got(RelayToHost(Pake(Start(pa)))) =>
      if pa.NotAPoint? then RejectRelay(h, MalformedMsg) else Respond(h, pa, at, luck)
    case Got(ViewerLeft) => h.(pc := Finished(ViewerGone))
    case Got(_) => RejectRelay(h, MalformedMsg)
    case Quiet => Kicked(h, Timeout(PakeStage))
    case Broken(_) => h.(pc := Finished(LinkLost))
  }

  function HearConfirm(h: Host, t: Transcript, r: LinkRecv<ServerToHost>, luck: Luck): Host {
    match r
    case Got(RelayToHost(Pake(Confirm(macA, sealedOffer)))) =>
      if macA != MacA(t) then RejectRelay(h, WrongCode)
      else
        var h1 := h.(limiter := L.FRESH, log := h.log + [MacOk(t)]);
        if !(sealedOffer.Sealed? && sealedOffer == Sealed(t, ViewerToHost, 0, sealedOffer.body)
             && !sealedOffer.body.NotUtf8?) then RejectRelay(h1, MalformedMsg)
        else if !luck.peerMade then Kicked(h1, TransportFailure)
        else if sealedOffer.body.BadSdp? then RejectRelay(h1, MalformedMsg)
        else
          var e := Ends(t, luck.local, sealedOffer.body.fp);
          h1.(pc := AwaitOpen(e),
              out := [ToServer(HostRelay(Answer(Sealed(t, HostToViewer, 0, Sdp(luck.local)))))],
              log := h1.log + [Answered(e)])
    case Got(ViewerLeft) => h.(pc := Finished(Failed(NoConfirm)))
    case Got(_) => RejectRelay(h, MalformedMsg)
    case Quiet => Kicked(h, NoConfirm)
    case Broken(_) => h.(pc := Finished(LinkLost))
  }

  function Hear(h: Host, r: LinkRecv<ServerToHost>, at: nat, luck: Luck): Host {
    match h.pc
    case Idle =>
      if r == Got(ViewerJoined) then Begin(h, at)
      else if r.Broken? then h.(pc := Finished(LinkLost))
      else h
    case AwaitStart => HearStart(h, r, at, luck)
    case AwaitConfirm(t) => HearConfirm(h, t, r, luck)
    case _ => h
  }

  function Opening(h: Host, how: Opened, fingerprintKnown: bool): Host {
    match h.pc
    case AwaitOpen(e) =>
      (match how
       case Ready =>
         if !fingerprintKnown then Kicked(h, BadViewerIdentity)
         else h.(pc := AwaitHello(e), out := [ToPeer(HelloMsg(MakeHello(h.cfg.device, HostRole, e.t, e.local, e.remote)))])
       case OpenTimedOut => Kicked(h, Timeout(ConnectStage))
       case OpenClosed => Kicked(h, TransportFailure)
       case OpenFailed => Kicked(h, TransportFailure))
    case _ => h
  }

  function HearHello(h: Host, e: Ends, n: Next, at: nat): Host {
    match n
    case Msg(HelloMsg(hello)) =>
      (match VerifyHello(hello, ViewerRole, e.t, e.remote, e.local)
       case None => Refuse(h, e, BadIdentity, BadViewerIdentity)
       case Some(viewer) =>
         if hello.version != h.cfg.device.version then
           Refuse(h, e, VersionMismatch(h.cfg.device.version), WrongVersion)
         else h.(pc := Asking(e, viewer, at + h.cfg.approval), log := h.log + [HelloOk(e, viewer, hello)]))
    case Msg(_) => Kicked(h, MalformedMsg)
    case Malformed => Kicked(h, MalformedMsg)
    case TimedOut => Kicked(h, Timeout(HelloStage))
    case Closed => Kicked(h, TransportFailure)
    case NextFailed => Kicked(h, TransportFailure)
  }

  function HearControl(h: Host, n: Next, at: nat): Host {
    match h.pc
    case AwaitHello(e) => HearHello(h, e, n, at)
    case Listening(e, viewer, deadline) =>
      if n.TimedOut? then h.(pc := Asking(e, viewer, deadline))
      else if n.Msg? || n.Malformed? then Kicked(h, MalformedMsg)
      else Kicked(h, TransportFailure)
    case Lingering(f, _) => if n.Msg? || n.Malformed? then h else Kicked(h, f)
    case _ => h
  }

  function HearApproval(h: Host, answer: Option<bool>, at: nat): Host {
    match h.pc
    case Asking(e, viewer, deadline) =>
      if answer == Some(true) then
        h.(pc := Granting(e, viewer), out := [ToPeer(DecisionMsg(Accepted))], log := h.log + [Granted(e, viewer)])
      else if answer == Some(false) then Refuse(h, e, Denied, DeniedByUser)
      else if at >= deadline then Refuse(h, e, NoResponse, DeniedByUser)
      else h.(pc := Listening(e, viewer, deadline))
    case _ => h
  }

  function SendDone(h: Host, ok: bool, at: nat, luck: Luck): Host
    requires h.out != []
  {
    var rest := h.(out := h.out[1..]);
    match h.out[0]
    case ToServer(m) =>
      if ok then rest.(said := h.said + [m]) else h.(pc := Finished(LinkLost), out := [])
    case ToPeer(_) =>
      match h.pc
      case Granting(e, viewer) =>
        if ok then
          rest.(pc := Finished(Session(viewer)), code := luck.code, draws := h.draws + 1,
                log := h.log + [AcceptSent(e, viewer)])
        else Kicked(h, TransportFailure)
      case Refusing(_, f) => if ok then rest.(pc := Lingering(f, at + h.cfg.signalingStep)) else Kicked(h, f)
      case _ => if ok then rest else Kicked(h, TransportFailure)
  }

  function TimeOf(i: Input, now: nat): nat { if i.Again? then now else i.at }

  /** Inputs arrive only while the host waits for them: it never waits with messages left to send. */
  predicate Expects(h: Host, i: Input) {
    && TimeOf(i, h.now) >= h.now
    && match i
       case Heard(_, _, _) => h.out == [] && (h.pc.Idle? || h.pc.AwaitStart? || h.pc.AwaitConfirm?)
       case Sent(_, _, _) => h.out != []
       case OpenIn(_, _, _) => h.out == [] && h.pc.AwaitOpen?
       case ControlIn(_, _) => h.out == [] && (h.pc.AwaitHello? || h.pc.Listening? || h.pc.Lingering?)
       case ApprovalIn(_, _) => h.out == [] && h.pc.Asking?
       case Again => h.out == [] && h.pc.Finished? && h.pc.outcome != LinkLost
  }

  /** One step. An input the host is not waiting for changes nothing. */
  function Step(h0: Host, i: Input): Host {
    if !Expects(h0, i) then h0
    else
      var h := h0.(now := TimeOf(i, h0.now));
      match i
      case Heard(r, at, luck) => Hear(h, r, at, luck)
      case Sent(ok, at, luck) => SendDone(h, ok, at, luck)
      case OpenIn(how, known, _) => Opening(h, how, known)
      case ControlIn(n, at) => HearControl(h, n, at)
      case ApprovalIn(answer, at) => HearApproval(h, answer, at)
      case Again => h.(pc := Idle, said := [])
  }

  function Run(h: Host, inputs: seq<Input>): Host {
    if inputs == [] then h else Step(Run(h, inputs[..|inputs| - 1]), inputs[|inputs| - 1])
  }

  function Initial(cfg: HostConfig, code: Code): Host { Host(cfg, Idle, [], code, 0, L.FRESH, 0, [], []) }
}
