/** What every run of a viewer keeps, whatever it hears and however its messages are sent. */
module ViewerRuns {
  import opened Wrappers
  import opened Protocol
  import opened HostMachine
  import opened ViewerMachine

  /** The log of a viewer is the beginning of one chain, each link about what the one before established. */
  predicate Chained(cfg: ViewerConfig, log: seq<ViewerEvent>) {
    && |log| <= 5
    && (|log| > 0 ==> log[0].Started?)
    && (|log| > 1 ==>
          && log[1].HostMacOk? && log[1].t.pa == log[0].pa && log[1].t.pb.Share?
          && log[1].t.code == cfg.code && log[1].t.hostId == cfg.hostId)
    && (|log| > 2 ==> log[2].Connected? && log[2].e.t == log[1].t && log[2].e.local == log[1].local)
    && (|log| > 3 ==> log[3].HostHelloOk? && log[3].e == log[2].e)
    && (|log| > 4 ==> log[4] == AcceptHeard(log[3].e, log[3].host))
  }

  /** How far a viewer with this result has come. */
  predicate Reached(r: ConnectResult, log: seq<ViewerEvent>) {
    var n := |log|;
    match r
    case Ok(host) => n == 5 && log[4].AcceptHeard? && log[4].host == host
    case Err(e) =>
      match e
      case WrongCodeGiven => n == 1
      case RetryLater(_) => n == 1
      case RejectedByHost(_) => n == 4
      case VersionsDiffer(ours, theirs, older) =>
        n == 4 && ours == PROTOCOL_VERSION && (older == ViewerSide <==> ours < theirs)
      case Expired(stage) =>
        n == (match stage
              case JoinStage => 0
              case PakeStage => 1
              case AnswerStage => 2
              case ConnectStage => 3
              case HelloStage => 3
              case DecisionStage => 4
              case PingStage => 5)
      case HostIsGone => n <= 4
      case Security(_) => n <= 4
      case LinkError => n <= 2
      case TransportError => 1 <= n <= 4
  }

  function ShareMessage(log: seq<ViewerEvent>): PakeMsg
    requires log != [] && log[0].Started?
  {
    Start(log[0].pa)
  }

  function OfferMessage(log: seq<ViewerEvent>): PakeMsg
    requires |log| > 1 && log[1].HostMacOk?
  {
    Confirm(MacA(log[1].t), Sealed(log[1].t, ViewerToHost, 0, Sdp(log[1].local)))
  }

  /**
   What can have been sent by then: the share, then the offer, and either may have been lost to a link that
   was closed already.
   */
  predicate MayHaveSaid(log: seq<ViewerEvent>, said: seq<PakeMsg>)
    requires (|log| > 0 ==> log[0].Started?) && (|log| > 1 ==> log[1].HostMacOk?)
  {
    || said == []
    || (|log| > 0 && said == [ShareMessage(log)])
    || (|log| > 1 && (said == [OfferMessage(log)] || said == [ShareMessage(log), OfferMessage(log)]))
  }

  predicate OnCourse(v: Viewer) {
    var n := |v.log|;
    && Chained(v.cfg, v.log) && MayHaveSaid(v.log, v.said)
    && match v.pc
       case AwaitJoined => n == 0 && v.out == []
       case AwaitReply(pa) =>
         n == 1 && v.log[0].pa == pa && (v.out == [] || (v.said == [] && v.out == [ToRelay(ShareMessage(v.log))]))
       case AwaitAnswer(t, local) =>
         && n == 2 && v.log[1] == HostMacOk(t, local)
         && (v.out == []
             || (MayHaveSaid(v.log[..1], v.said) && v.out == [ToRelay(OfferMessage(v.log))]))
       case AwaitChannel(e) => n == 3 && v.log[2] == Connected(e) && v.out == []
       case AwaitHostHello(e) => n == 3 && v.log[2] == Connected(e) && (v.out == [] || (|v.out| == 1 && v.out[0].ToHost?))
       case AwaitDecision(e, host) => n == 4 && v.log[3] == HostHelloOk(e, host) && v.out == []
       case Done(r) => Reached(r, v.log) && v.out == []
  }

  lemma SayingMore(v: Viewer, ev: ViewerEvent)
    requires Chained(v.cfg, v.log) && Chained(v.cfg, v.log + [ev]) && MayHaveSaid(v.log, v.said)
    ensures MayHaveSaid(v.log + [ev], v.said) && (v.log + [ev])[..|v.log|] == v.log
  {
  }

  lemma JoiningKeepsCourse(v: Viewer, r: LinkRecv<ServerToViewer>, luck: ViewerLuck)
    requires OnCourse(v) && v.pc.AwaitJoined?
    ensures OnCourse(HearJoined(v, r, luck))
  {
    SayingMore(v, Started(luck.pa));
  }

  lemma ReplyKeepsCourse(v: Viewer, pa: Share, m: PakeMsg, luck: ViewerLuck)
    requires OnCourse(v) && v.out == [] && v.pc == AwaitReply(pa)
    ensures OnCourse(HearReply(v, pa, m, luck))
  {
    var v' := HearReply(v, pa, m, luck);
    if v'.pc.AwaitAnswer? { SayingMore(v, HostMacOk(v'.pc.t, luck.local)); }
  }

  lemma AnswerKeepsCourse(v: Viewer, t: Transcript, local: Fingerprint, m: PakeMsg)
    requires OnCourse(v) && v.out == [] && v.pc == AwaitAnswer(t, local)
    ensures OnCourse(HearAnswer(v, t, local, m))
  {
    var v' := HearAnswer(v, t, local, m);
    if v'.pc.AwaitChannel? { SayingMore(v, Connected(v'.pc.e)); }
  }

  lemma RelayErrorKeepsCourse(v: Viewer, r: LinkRecv<ServerToViewer>, stage: Stage)
    requires OnCourse(v) && RelayError(r, stage).Some?
    requires if stage.PakeStage? then v.pc.AwaitReply? else stage.AnswerStage? && v.pc.AwaitAnswer?
    ensures OnCourse(Fail(v, RelayError(r, stage).value))
  {
  }

  lemma HearingKeepsCourse(v: Viewer, r: LinkRecv<ServerToViewer>, luck: ViewerLuck)
    requires OnCourse(v) && v.out == []
    ensures OnCourse(VHear(v, r, luck))
  {
    match v.pc {
      case AwaitJoined => JoiningKeepsCourse(v, r, luck);
      case AwaitReply(pa) =>
        if RelayError(r, PakeStage).Some? {
          RelayErrorKeepsCourse(v, r, PakeStage);
        } else {
          ReplyKeepsCourse(v, pa, r.msg.payload.msg, luck);
        }
      case AwaitAnswer(t, local) =>
        if RelayError(r, AnswerStage).Some? {
          RelayErrorKeepsCourse(v, r, AnswerStage);
        } else {
          AnswerKeepsCourse(v, t, local, r.msg.payload.msg);
        }
      case _ =>
    }
  }

  lemma SendingKeepsCourse(v: Viewer, how: SendResult)
    requires OnCourse(v) && v.out != []
    ensures OnCourse(VSendDone(v, how))
  {
    assert v.out[1..] == [];
  }

  lemma OpeningKeepsCourse(v: Viewer, how: Opened, known: bool)
    requires OnCourse(v) && v.out == []
    ensures OnCourse(VOpening(v, how, known))
  {
  }

  lemma HelloKeepsCourse(v: Viewer, e: Ends, c: Control)
    requires OnCourse(v) && v.out == [] && v.pc == AwaitHostHello(e)
    ensures OnCourse(HearHostHello(v, e, c))
  {
    var v' := HearHostHello(v, e, c);
    if v'.pc.AwaitDecision? { SayingMore(v, HostHelloOk(e, v'.pc.host)); }
  }

  lemma DecisionKeepsCourse(v: Viewer, e: Ends, host: PeerIdentity, c: Control)
    requires OnCourse(v) && v.out == [] && v.pc == AwaitDecision(e, host)
    ensures OnCourse(HearDecision(v, e, host, c))
  {
    SayingMore(v, AcceptHeard(e, host));
  }

  lemma ControlKeepsCourse(v: Viewer, n: Next)
    requires OnCourse(v) && v.out == []
    ensures OnCourse(VHearControl(v, n))
  {
    match v.pc {
      case AwaitHostHello(e) => if n.Msg? { HelloKeepsCourse(v, e, n.control); }
      case AwaitDecision(e, host) => if n.Msg? { DecisionKeepsCourse(v, e, host, n.control); }
      case _ =>
    }
  }

  lemma StepKeepsCourse(v: Viewer, i: ViewerInput)
    requires OnCourse(v)
    ensures OnCourse(VStep(v, i)) && VStep(v, i).cfg == v.cfg
  {
    if VExpects(v, i) {
      match i {
        case VHeard(r, luck) => HearingKeepsCourse(v, r, luck);
        case VSent(sent) => SendingKeepsCourse(v, sent);
        case VOpenIn(how, known) => OpeningKeepsCourse(v, how, known);
        case VControlIn(n) => ControlKeepsCourse(v, n);
      }
    }
  }

  lemma {:induction false} RunKeepsCourse(cfg: ViewerConfig, inputs: seq<ViewerInput>)
    ensures OnCourse(VRun(VInitial(cfg), inputs)) && VRun(VInitial(cfg), inputs).cfg == cfg
  {
    if inputs != [] {
      RunKeepsCourse(cfg, inputs[..|inputs| - 1]);
      StepKeepsCourse(VRun(VInitial(cfg), inputs[..|inputs| - 1]), inputs[|inputs| - 1]);
    }
  }

  /**
   However a viewer's run ends, its result says how far it came, and what it sent is a part of share and offer:
   a wrong code or a delay is only ever reported before the offer exists, and a session only after the host's
   MAC, its description and its hello were verified for the same transcript and ends.
   */
  lemma WhatTheViewerSays(cfg: ViewerConfig, inputs: seq<ViewerInput>)
    requires VRun(VInitial(cfg), inputs).pc.Done?
    ensures
      var v := VRun(VInitial(cfg), inputs);
      Chained(cfg, v.log) && Reached(v.pc.result, v.log) && MayHaveSaid(v.log, v.said)
  {
    RunKeepsCourse(cfg, inputs);
  }
}
