/**
 The viewer's side of the first connection as the program runs it: `connect` and the functions under it,
 over a signaling link and a data channel, proved to take exactly the steps of `ViewerMachine`.
 */
module ViewerAgent {
  import opened Wrappers
  import opened Protocol
  import opened ViewerMachine
  import opened Channel
  import H = HostMachine
  import ViewerOutcomes
  import ViewerRuns

  /** The signaling link: what it will still deliver (then it is closed), and what was sent on it. */
  class ViewerLink {
    var inbox: seq<LinkRecv<ServerToViewer>>
    var sent: seq<PakeMsg>
    var dropped: bool
    /** What it has delivered, and how each sending went. */
    ghost var delivered: seq<LinkRecv<ServerToViewer>>
    ghost var tries: seq<SendResult>

    constructor (inbox: seq<LinkRecv<ServerToViewer>>)
      ensures this.inbox == inbox && sent == [] && !dropped && delivered == [] && tries == []
    {
      this.inbox, sent, dropped, delivered, tries := inbox, [], false, [], [];
    }

    method Recv(clock: Clock, maxWait: nat) returns (r: LinkRecv<ServerToViewer>)
      requires !dropped
      modifies this`inbox, this`delivered, clock
      ensures clock.now >= old(clock.now) + (if r.Quiet? then maxWait else 0) && delivered == old(delivered) + [r]
      ensures if old(inbox) == [] then r == Broken(true) && inbox == []
              else r == old(inbox)[0] && inbox == old(inbox)[1..]
    {
      clock.Pass();
      r := Broken(true);
      if inbox != [] {
        r := inbox[0];
        inbox := inbox[1..];
      }
      if r.Quiet? { clock.now := clock.now + maxWait; }
      delivered := delivered + [r];
    }

    method Send(m: PakeMsg) returns (how: SendResult)
      requires !dropped
      modifies this`sent, this`tries
      ensures sent == (if how.SendOk? then old(sent) + [m] else old(sent)) && tries == old(tries) + [how]
    {
      how :| true;
      if how.SendOk? { sent := sent + [m]; }
      tries := tries + [how];
    }

    method Drop()
      modifies this`dropped
      ensures dropped
    {
      dropped := true;
    }
  }

  /** What the world outside told the caller: signaling, chance, and the data channel. */
  datatype VTold = VTold(
    heard: seq<LinkRecv<ServerToViewer>>, tries: seq<SendResult>, luck: seq<ViewerLuck>, dealt: Dealings)

  /** One more result. */
  ghost function VOneMore(told: VTold, v: Viewer, i: ViewerInput): VTold {
    var d := told.dealt;
    match i
    case VHeard(r, luck) => told.(heard := told.heard + [r], luck := told.luck + [luck])
    case VSent(how) =>
      if v.out != [] && v.out[0].ToRelay? then told.(tries := told.tries + [how])
      else told.(dealt := d.(tries := d.tries + [how.SendOk?]))
    case VOpenIn(how, known) => told.(dealt := d.(openings := d.openings + [(how, known)]))
    case VControlIn(n) => told.(dealt := d.(read := d.read + [n]))
  }

  /** What was told according to a record. */
  ghost function VToldIn(v: Viewer, trace: seq<ViewerInput>): VTold {
    if trace == [] then VTold([], [], [], NO_DEALINGS)
    else
      var front := trace[..|trace| - 1];
      VOneMore(VToldIn(v, front), VRun(v, front), trace[|trace| - 1])
  }

  ghost predicate VRecords(v: Viewer, trace: seq<ViewerInput>, now: Viewer, told: VTold) {
    now == VRun(v, trace) && told == VToldIn(v, trace)
  }

  /** Where a relay message takes the machine. */
  ghost function AfterRelay(v: Viewer, r: Result<PakeMsg, ConnectError>, luck: ViewerLuck): Viewer {
    match r
    case Err(e) => Fail(v, e)
    case Ok(m) =>
      match v.pc
      case AwaitReply(pa) => HearReply(v, pa, m, luck)
      case AwaitAnswer(t, local) => HearAnswer(v, t, local, m)
      case _ => v
  }

  /** Where a control message takes the machine. */
  ghost function AfterControl(v: Viewer, r: Result<Control, ConnectError>): Viewer {
    match r
    case Err(e) => Fail(v, e)
    case Ok(c) =>
      match v.pc
      case AwaitHostHello(e) => HearHostHello(v, e, c)
      case AwaitDecision(e, host) => HearDecision(v, e, host, c)
      case _ => v
  }

  class Caller {
    const cfg: ViewerConfig
    const signalingStep: nat
    const connect: nat
    const approval: nat
    const link: ViewerLink
    const clock: Clock
    const dice: Dice<ViewerLuck>
    /** The record of what it waited for, and where the machine is after it. */
    ghost var trace: seq<ViewerInput>
    ghost var machine: Viewer
    /** Its dealings with the data channel. */
    ghost var dealt: Dealings

    /** The record leads to where the machine is, and holds `told`: whatever else it led to or held is the same. */
    ghost predicate RecordedAs(told: VTold)
      reads this
    {
      forall v, t :: VRecords(VInitial(cfg), trace, v, t) ==> v == machine && t == told
    }

    lemma RecordLeads(told: VTold)
      requires RecordedAs(told)
      ensures machine == VRun(VInitial(cfg), trace) && told == VToldIn(VInitial(cfg), trace)
    {
      assert VRecords(VInitial(cfg), trace, VRun(VInitial(cfg), trace), VToldIn(VInitial(cfg), trace));
    }

    /** What the caller was told. */
    ghost function WasTold(): VTold
      reads this, link, dice
    {
      VTold(link.delivered, link.tries, dice.thrown, dealt)
    }

    ghost predicate InSync()
      reads this, link, dice
    {
      RecordedAs(WasTold()) && machine.cfg == cfg && link.sent == machine.said
    }

    constructor (cfg: ViewerConfig, signalingStep: nat, connect: nat, approval: nat, link: ViewerLink, clock: Clock,
      dice: Dice<ViewerLuck>)
      requires link.sent == [] && link.delivered == [] && link.tries == [] && dice.thrown == []
      ensures this.cfg == cfg && this.link == link && this.clock == clock && this.dice == dice
      ensures InSync() && trace == [] && machine == VInitial(cfg) && dealt == NO_DEALINGS
    {
      this.cfg, this.signalingStep, this.connect, this.approval := cfg, signalingStep, connect, approval;
      this.link, this.clock, this.dice := link, clock, dice;
      trace, machine, dealt := [], VInitial(cfg), NO_DEALINGS;
    }

    /** Records one result more than it `told` so far. */
    ghost method Record(i: ViewerInput, told: VTold)
      requires RecordedAs(told)
      modifies this`trace, this`machine
      ensures RecordedAs(VOneMore(told, old(machine), i))
      ensures machine == VStep(old(machine), i)
    {
      RecordLeads(told);
      trace, machine := trace + [i], VStep(machine, i);
      assert trace[..|trace| - 1] == old(trace);
    }

    /** A link that is closed is no error here: what the host said before it closed may still be queued. */
    method SendRelay(m: PakeMsg) returns (r: Result<(), ConnectError>)
      requires InSync() && machine.out == [ToRelay(m)] && !link.dropped
      modifies this`trace, this`machine, link`sent, link`tries
      ensures InSync()
      ensures match r
              case Err(e) => e == LinkError && machine == Fail(old(machine), e)
              case Ok(_) => machine == old(machine).(out := [], said := link.sent)
    {
      ghost var told := WasTold();
      var how := link.Send(m);
      Record(VSent(how), told);
      return if how.SendFailed? then Err(LinkError) else Ok(());
    }

    method RecvRelay(stage: Stage) returns (r: Result<PakeMsg, ConnectError>, luck: ViewerLuck)
      requires InSync() && machine.out == [] && !link.dropped
      requires match machine.pc
               case AwaitReply(_) => stage == PakeStage
               case AwaitAnswer(_, _) => stage == AnswerStage
               case _ => false
      modifies this`trace, this`machine, link`inbox, link`delivered, clock, dice
      ensures InSync() && machine == AfterRelay(old(machine), r, luck)
      ensures clock.now >= old(clock.now) + if r == Err(Expired(stage)) then signalingStep else 0
      ensures r.Err? && r.error.Expired? ==> r.error.stage == stage
    {
      ghost var told := WasTold();
      var got := link.Recv(clock, signalingStep);
      luck := dice.Throw();
      Record(VHeard(got, luck), told);
      match got {
        case Got(RelayToViewer(Pake(m))) => r := Ok(m);
        case Got(RelayToViewer(Undecodable)) => r := Err(Security("malformed relay"));
        case Got(HostLeft) => r := Err(HostIsGone);
        case Got(Joined) => r := Err(Security("unexpected signaling"));
        case Quiet => r := Err(Expired(stage));
        case Broken(closed) => r := Err(FromLink(closed));
      }
    }

    method NextControl(ch: ControlChannel, deadline: nat, stage: Stage) returns (r: Result<Control, ConnectError>)
      requires InSync() && machine.out == [] && ch.Valid() && ch.peer.clock == clock
      requires match machine.pc
               case AwaitHostHello(_) => stage == HelloStage
               case AwaitDecision(_, _) => stage == DecisionStage
               case _ => false
      requires dealt == ch.Dealt()
      modifies this`trace, this`machine, this`dealt, clock, ch, ch.peer
      ensures InSync() && ch.Valid() && ch.localClosed == old(ch.localClosed) && dealt == ch.Dealt()
      ensures clock.now >= old(clock.now) && (r == Err(Expired(stage)) ==> clock.now >= deadline)
      ensures r.Err? && r.error.Expired? ==> r.error.stage == stage
      ensures r.Ok? ==> |ch.returned| == |old(ch.returned)| + 1 && Msg(r.value) == Decoded(ch.returned[|old(ch.returned)|])
      ensures machine == AfterControl(old(machine), r)
    {
      ghost var told := WasTold();
      var n, _ := ch.NextControl(deadline);
      dealt := dealt.(read := dealt.read + [n]);
      Record(VControlIn(n), told);
      match n {
        case Msg(c) => r := Ok(c);
        case Malformed => r := Err(Security("malformed control"));
        case Closed => r := Err(HostIsGone);
        case TimedOut => r := Err(Expired(stage));
        case NextFailed => r := Err(TransportError);
      }
    }

    /** No result that is due to a timeout comes before that time has passed. */
    ghost predicate Waited(r: ConnectResult, spent: int) {
      && spent >= 0
      && (r.Err? && r.error.Expired? ==>
            match r.error.stage
            case ConnectStage => spent >= connect
            case DecisionStage => spent >= approval + signalingStep
            case PingStage => false
            case _ => spent >= signalingStep)
    }

    /** What is recorded of a data channel is what that channel did; without a session it is closed, if there is one. */
    ghost predicate Served(r: ConnectResult, ch: ControlChannel?)
      reads this, if ch == null then {} else {ch, ch.peer}
    {
      && machine.pc == Done(r) && machine.out == []
      && if ch == null then dealt == NO_DEALINGS && r.Err?
         else ch.Valid() && dealt == ch.Dealt() && ch.localClosed == r.Err?
    }

    /** The channel has served, and was left open or closed as it was. */
    ghost predicate Shaken(r: ConnectResult, ch: ControlChannel, wasClosed: bool)
      reads this, ch, ch.peer
    {
      && machine.pc == Done(r) && machine.out == []
      && ch.Valid() && dealt == ch.Dealt() && ch.localClosed == wasClosed
    }

    /**
     Connects. Whatever the result, the link is closed on return; without a session, so is the channel, if
     there is one.
     */
    method Connect() returns (r: ConnectResult, ch: ControlChannel?)
      requires InSync() && machine == VInitial(cfg) && !link.dropped && dealt == NO_DEALINGS
      modifies this, link, clock, dice
      ensures InSync() && Served(r, ch) && Waited(r, clock.now - old(clock.now))
      ensures exists k: nat :: ViewerOutcomes.EndsWith(cfg, trace, k, r)
      ensures ViewerRuns.Chained(cfg, machine.log) && ViewerRuns.Reached(r, machine.log)
      ensures ViewerRuns.MayHaveSaid(machine.log, link.sent)
      ensures link.dropped
      ensures ch != null ==> fresh(ch) && fresh(ch.peer) && ch.peer.clock == clock
    {
      r, ch := Err(HostIsGone), null;
      var joined := Join();
      if joined.Err? {
        r := Err(joined.error);
      } else {
        r, ch := Introduce(joined.value);
      }
      link.Drop();
      RecordLeads(WasTold());
      ViewerRuns.WhatTheViewerSays(cfg, trace);
      ViewerOutcomes.ResultsExactly(cfg, trace, r);
    }

    /** Waits until it is let in, and makes its share. */
    method Join() returns (r: Result<Share, ConnectError>)
      requires InSync() && machine == VInitial(cfg) && !link.dropped
      modifies this`trace, this`machine, link`inbox, link`delivered, clock, dice
      ensures InSync() && Waited(if r.Err? then Err(r.error) else Err(LinkError), clock.now - old(clock.now))
      ensures match r
              case Err(e) => machine.pc == Done(Err(e)) && machine.out == []
              case Ok(pa) => machine.pc == AwaitReply(pa) && machine.out == [ToRelay(Start(pa))]
    {
      ghost var told := WasTold();
      var got := link.Recv(clock, signalingStep);
      var luck := dice.Throw();
      Record(VHeard(got, luck), told);
      match got {
        case Got(Joined) => r := if luck.pakeMade then Ok(luck.pa) else Err(Security("pake start"));
        case Got(HostLeft) => r := Err(HostIsGone);
        case Got(RelayToViewer(_)) => r := Err(Security("unexpected relay"));
        case Quiet => r := Err(Expired(JoinStage));
        case Broken(closed) => r := Err(FromLink(closed));
      }
    }

    /** Proves the code over the relay, and makes a peer only when the host has proved it too. */
    method Introduce(pa: Share) returns (r: ConnectResult, ch: ControlChannel?)
      requires InSync() && machine.pc == AwaitReply(pa) && machine.out == [ToRelay(Start(pa))] && !link.dropped
      requires dealt == NO_DEALINGS
      modifies this, link`sent, link`tries, link`inbox, link`delivered, clock, dice
      ensures InSync() && Served(r, ch) && Waited(r, clock.now - old(clock.now))
      ensures ch != null ==> fresh(ch) && fresh(ch.peer) && ch.peer.clock == clock
    {
      ch := null;
      var sent := SendRelay(Start(pa));
      if sent.Err? { return Err(sent.error), null; }
      var got, luck := RecvRelay(PakeStage);
      if got.Err? { return Err(got.error), null; }
      match got.value {
        case Reply(pb, macB) =>
          if pb.NotAPoint? { return Err(Security("malformed relay")), null; }
          var t := Transcript(cfg.code, cfg.hostId, pa, pb);
          // Nothing about the viewer's addresses has been sent so far.
          if macB != MacB(t) { return Err(WrongCodeGiven), null; }
          if !luck.peerMade { return Err(TransportError), null; }
          ch := NewChannel();
          if !luck.offerMade {
            r := Err(TransportError);
          } else {
            r := Handshake(ch, t, luck.local);
          }
          if r.Err? { ch.Close(); }
        case RetryAfter(ms) => r := Err(RetryLater(ms));
        case _ => r := Err(Security("unexpected relay"));
      }
    }

    method NewChannel() returns (ch: ControlChannel)
      ensures fresh(ch) && fresh(ch.peer) && ch.Valid() && !ch.localClosed && ch.peer.clock == clock
      ensures ch.Dealt() == NO_DEALINGS
    {
      var peer := new Peer(clock);
      ch := new ControlChannel(peer);
    }

    /** Sends the sealed offer, opens the sealed answer, and goes on over the data channel. */
    method Handshake(ch: ControlChannel, t: Transcript, local: Fingerprint) returns (r: ConnectResult)
      requires InSync() && machine.pc == AwaitAnswer(t, local) && !link.dropped
      requires machine.out == [ToRelay(Confirm(MacA(t), Sealed(t, ViewerToHost, 0, Sdp(local))))]
      requires ch.Valid() && ch.peer.clock == clock && dealt == ch.Dealt()
      modifies this`trace, this`machine, this`dealt, link`sent, link`tries, link`inbox, link`delivered,
               clock, dice, ch, ch.peer
      ensures InSync() && Shaken(r, ch, old(ch.localClosed)) && Waited(r, clock.now - old(clock.now))
    {
      var sent := SendRelay(Confirm(MacA(t), Sealed(t, ViewerToHost, 0, Sdp(local))));
      if sent.Err? { return Err(sent.error); }
      var got, _ := RecvRelay(AnswerStage);
      if got.Err? { return Err(got.error); }
      match got.value {
        case Answer(sealed) =>
          if !sealed.Sealed? || sealed != Sealed(t, HostToViewer, 0, sealed.body) || sealed.body.NotUtf8? {
            return Err(Security("sealed answer"));
          }
          if sealed.body.BadSdp? { return Err(TransportError); }
          r := Open(ch, H.Ends(t, local, sealed.body.fp));
        case Rejected => r := Err(Security("host rejected confirm"));
        case _ => r := Err(Security("unexpected relay"));
      }
    }

    method Open(ch: ControlChannel, e: H.Ends) returns (r: ConnectResult)
      requires InSync() && machine.pc == AwaitChannel(e) && machine.out == []
      requires ch.Valid() && ch.peer.clock == clock && dealt == ch.Dealt()
      modifies this`trace, this`machine, this`dealt, clock, ch, ch.peer
      ensures InSync() && Shaken(r, ch, old(ch.localClosed)) && Waited(r, clock.now - old(clock.now))
    {
      var now := clock.Read();
      ghost var told := WasTold();
      var how, _ := ch.WaitOpen(now + connect);
      var known := ch.peer.remoteKnown;
      dealt := dealt.(openings := dealt.openings + [(how, known)]);
      Record(VOpenIn(how, known), told);
      match how {
        case Ready =>
          if !known { return Err(Security("no remote fingerprint")); }
          r := Greet(ch, e);
        case OpenClosed => r := Err(HostIsGone);
        case OpenTimedOut => r := Err(Expired(ConnectStage));
        case OpenFailed => r := Err(TransportError);
      }
    }

    /** Exchanges hellos, and waits for the decision. */
    method Greet(ch: ControlChannel, e: H.Ends) returns (r: ConnectResult)
      requires InSync() && machine.pc == AwaitHostHello(e) && ch.Valid() && ch.peer.clock == clock && dealt == ch.Dealt()
      requires machine.out == [ToHost(HelloMsg(MakeHello(AsViewer(cfg.device), ViewerRole, e.t, e.local, e.remote)))]
      modifies this`trace, this`machine, this`dealt, clock, ch, ch.peer
      ensures InSync() && Shaken(r, ch, old(ch.localClosed)) && Waited(r, clock.now - old(clock.now))
    {
      var ok := SendHello(ch, MakeHello(AsViewer(cfg.device), ViewerRole, e.t, e.local, e.remote));
      if !ok { return Err(TransportError); }
      var now := clock.Read();
      var got := NextControl(ch, now + signalingStep, HelloStage);
      if got.Err? { return Err(got.error); }
      if !got.value.HelloMsg? { return Err(Security("unexpected control")); }
      var host := VerifyHello(got.value.hello, HostRole, e.t, e.remote, e.local);
      if host.None? { return Err(Security("host identity")); }
      now := clock.Read();
      got := NextControl(ch, now + approval + signalingStep, DecisionStage);
      if got.Err? { return Err(got.error); }
      match got.value {
        case DecisionMsg(Accepted) => r := Ok(host.value);
        case DecisionMsg(Refused(VersionMismatch(theirs))) =>
          r := Err(VersionsDiffer(PROTOCOL_VERSION, theirs, if PROTOCOL_VERSION < theirs then ViewerSide else HostSide));
        case DecisionMsg(Refused(reason)) => r := Err(RejectedByHost(reason));
        case _ => r := Err(Security("unexpected control"));
      }
    }

    method SendHello(ch: ControlChannel, hello: Hello) returns (ok: bool)
      requires InSync() && machine.out == [ToHost(HelloMsg(hello))] && ch.Valid() && dealt == ch.Dealt()
      modifies this`trace, this`machine, this`dealt, ch.peer`sent, ch.peer`tries, ch.peer`triedAt
      ensures InSync() && ch.Valid() && dealt == ch.Dealt()
      ensures ch.peer.sent == if ok then old(ch.peer.sent) + [HelloMsg(hello)] else old(ch.peer.sent)
      ensures machine == if ok then old(machine).(out := []) else Fail(old(machine), TransportError)
    {
      ghost var told := WasTold();
      ok := ch.SendControl(HelloMsg(hello));
      dealt := dealt.(tries := dealt.tries + [ok]);
      Record(VSent(if ok then SendOk else SendFailed), told);
    }
  }
}
