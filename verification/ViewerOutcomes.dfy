/**
 Why a viewer's run ended as it did: for each result of `connect`, the one thing it was told last.

 `Brings` is read from the result to its cause and does not mention the machine's step functions; the theorem
 is that the machine ends with a result exactly when its cause occurs.
 */
module ViewerOutcomes {
  import opened Wrappers
  import opened Protocol
  import opened HostMachine
  import opened ViewerMachine
  import ViewerRuns

  /** The server relays `m`. */
  predicate Relays(i: ViewerInput, m: PakeMsg) { i.VHeard? && i.r == Got(RelayToViewer(Pake(m))) }

  /** The server relays something that decodes. */
  predicate RelaysMessage(i: ViewerInput) {
    i.VHeard? && i.r.Got? && i.r.msg.RelayToViewer? && i.r.msg.payload.Pake?
  }

  predicate Says(i: ViewerInput, c: Control) { i == VControlIn(Msg(c)) }

  /** What the viewer is waiting for. */
  function StageAt(v: Viewer): Stage {
    match v.pc
    case AwaitJoined => JoinStage
    case AwaitReply(_) => PakeStage
    case AwaitAnswer(_, _) => AnswerStage
    case AwaitChannel(_) => ConnectStage
    case AwaitHostHello(_) => HelloStage
    case AwaitDecision(_, _) => DecisionStage
    case Done(_) => PingStage
  }

  /** A reply to the viewer's share; `right`: with the MAC of the viewer's own code and host ID. */
  predicate Replies(v: Viewer, i: ViewerInput, right: bool) {
    && v.pc.AwaitReply? && RelaysMessage(i) && i.r.msg.payload.msg.Reply? && i.r.msg.payload.msg.pb.Share?
    && var m := i.r.msg.payload.msg;
    right == (m.macB == MacB(Transcript(v.cfg.code, v.cfg.hostId, v.pc.pa, m.pb)))
  }

  /** An answer; `opens`: sealed by the host for this session, as its first message, and a text. */
  predicate Answers(v: Viewer, i: ViewerInput, opens: bool) {
    && v.pc.AwaitAnswer? && RelaysMessage(i) && i.r.msg.payload.msg.Answer?
    && var s := i.r.msg.payload.msg.sealedAnswer;
    opens == (s.Sealed? && s.key == v.pc.t && s.dir == HostToViewer && s.counter == 0 && !s.body.NotUtf8?)
  }

  /** The host's hello; `good`: of the host's role, for these ends. */
  predicate Greets(v: Viewer, i: ViewerInput, good: bool) {
    && v.pc.AwaitHostHello? && i.VControlIn? && i.n.Msg? && i.n.control.HelloMsg?
    && var e := v.pc.e;
    good == VerifyHello(i.n.control.hello, HostRole, e.t, e.remote, e.local).Some?
  }

  /** What breaks the rules, by what it is reported as. */
  predicate Breaks(v: Viewer, i: ViewerInput, what: string) {
    || (what == "pake start" && v.pc.AwaitJoined? && i.VHeard? && i.r == Got(Joined) && !i.luck.pakeMade)
    || (what == "unexpected relay" && v.pc.AwaitJoined? && i.VHeard? && i.r.Got? && i.r.msg.RelayToViewer?)
    || (what == "unexpected relay" && v.pc.AwaitReply? && RelaysMessage(i)
        && !i.r.msg.payload.msg.Reply? && !i.r.msg.payload.msg.RetryAfter?)
    || (what == "unexpected relay" && v.pc.AwaitAnswer? && RelaysMessage(i)
        && !i.r.msg.payload.msg.Answer? && !i.r.msg.payload.msg.Rejected?)
    || (what == "malformed relay" && !v.pc.AwaitJoined? && i.VHeard? && i.r == Got(RelayToViewer(Undecodable)))
    || (what == "malformed relay" && v.pc.AwaitReply? && RelaysMessage(i)
        && i.r.msg.payload.msg.Reply? && i.r.msg.payload.msg.pb.NotAPoint?)
    || (what == "unexpected signaling" && !v.pc.AwaitJoined? && i.VHeard? && i.r == Got(Joined))
    || (what == "sealed answer" && Answers(v, i, false))
    || (what == "host rejected confirm" && v.pc.AwaitAnswer? && Relays(i, Rejected))
    || (what == "no remote fingerprint" && i == VOpenIn(Ready, false))
    || (what == "malformed control" && i == VControlIn(Malformed))
    || (what == "unexpected control" && i.VControlIn? && i.n.Msg?
        && if v.pc.AwaitHostHello? then !i.n.control.HelloMsg? else !i.n.control.DecisionMsg?)
    || (what == "host identity" && Greets(v, i, false))
  }

  /** `i`, told to a viewer that waits for it, ends its run with `r`. */
  predicate Brings(v: Viewer, i: ViewerInput, r: ConnectResult) {
    match r
    case Ok(host) => v.pc.AwaitDecision? && v.pc.host == host && Says(i, DecisionMsg(Accepted))
    case Err(WrongCodeGiven) => Replies(v, i, false)
    case Err(RetryLater(ms)) => v.pc.AwaitReply? && Relays(i, RetryAfter(ms))
    case Err(HostIsGone) =>
      || (i.VHeard? && (i.r == Got(HostLeft) || i.r == Broken(true)))
      || (i.VOpenIn? && i.how == OpenClosed) || i == VControlIn(Closed)
    case Err(RejectedByHost(reason)) =>
      v.pc.AwaitDecision? && Says(i, DecisionMsg(Refused(reason))) && !reason.VersionMismatch?
    case Err(VersionsDiffer(ours, theirs, older)) =>
      && v.pc.AwaitDecision? && Says(i, DecisionMsg(Refused(VersionMismatch(theirs))))
      && ours == PROTOCOL_VERSION && (older == ViewerSide <==> ours < theirs)
    case Err(Expired(stage)) =>
      && stage == StageAt(v)
      && ((i.VHeard? && i.r.Quiet?) || (i.VOpenIn? && i.how == OpenTimedOut) || i == VControlIn(TimedOut))
    case Err(Security(what)) => Breaks(v, i, what)
    case Err(LinkError) =>
      (i.VHeard? && i.r == Broken(false)) || (i == VSent(SendFailed) && v.out != [] && v.out[0].ToRelay?)
    case Err(TransportError) =>
      || (i.VSent? && !i.sent.SendOk? && v.out != [] && v.out[0].ToHost?)
      || (i.VOpenIn? && i.how == OpenFailed) || i == VControlIn(NextFailed)
      || (Replies(v, i, true) && !(i.luck.peerMade && i.luck.offerMade))
      || (Answers(v, i, true) && i.r.msg.payload.msg.sealedAnswer.body.BadSdp?)
  }

  lemma RelayBrings(v: Viewer, i: ViewerInput, r: ConnectResult)
    requires VExpects(v, i) && i.VHeard? && !v.pc.AwaitJoined?
    ensures VStep(v, i).pc == Done(r) <==> Brings(v, i, r)
  {
  }

  lemma JoinedBrings(v: Viewer, i: ViewerInput, r: ConnectResult)
    requires VExpects(v, i) && i.VHeard? && v.pc.AwaitJoined?
    ensures VStep(v, i).pc == Done(r) <==> Brings(v, i, r)
  {
  }

  lemma ControlBrings(v: Viewer, i: ViewerInput, r: ConnectResult)
    requires VExpects(v, i) && i.VControlIn?
    ensures VStep(v, i).pc == Done(r) <==> Brings(v, i, r)
  {
  }

  lemma StepBrings(v: Viewer, i: ViewerInput, r: ConnectResult)
    requires VExpects(v, i) && !v.pc.Done?
    ensures VStep(v, i).pc == Done(r) <==> Brings(v, i, r)
  {
    match i {
      case VHeard(_, _) => if v.pc.AwaitJoined? { JoinedBrings(v, i, r); } else { RelayBrings(v, i, r); }
      case VControlIn(_) => ControlBrings(v, i, r);
      case _ =>
    }
  }

  /** The `k`-th input ends the run with `r`. */
  ghost predicate EndsWith(cfg: ViewerConfig, inputs: seq<ViewerInput>, k: nat, r: ConnectResult) {
    k < |inputs|
    && var v := VRun(VInitial(cfg), inputs[..k]);
    !v.pc.Done? && VExpects(v, inputs[k]) && Brings(v, inputs[k], r)
  }

  lemma OneInputMore(cfg: ViewerConfig, inputs: seq<ViewerInput>, k: nat, r: ConnectResult)
    requires k < |inputs| - 1
    ensures EndsWith(cfg, inputs, k, r) <==> EndsWith(cfg, inputs[..|inputs| - 1], k, r)
  {
    assert inputs[..|inputs| - 1][..k] == inputs[..k];
  }

  /**
   In every run: the viewer ends with a result if and only if its cause occurred. In particular a wrong code is
   reported exactly when the last thing heard is a reply whose MAC is not that of the viewer's own code, host ID
   and share; a departed host exactly when the host left, or the link or the channel closed; a rejection and a
   version exactly as they were heard.
   */
  lemma {:induction false} ResultsExactly(cfg: ViewerConfig, inputs: seq<ViewerInput>, r: ConnectResult)
    ensures VRun(VInitial(cfg), inputs).pc == Done(r) <==> exists k: nat :: EndsWith(cfg, inputs, k, r)
    decreases |inputs|
  {
    if inputs != [] {
      var n := |inputs| - 1;
      var (front, i) := (inputs[..n], inputs[n]);
      var v := VRun(VInitial(cfg), front);
      ResultsExactly(cfg, front, r);
      ViewerRuns.RunKeepsCourse(cfg, front);
      if k: nat :| EndsWith(cfg, front, k, r) { OneInputMore(cfg, inputs, k, r); }
      if k: nat :| k < n && EndsWith(cfg, inputs, k, r) { OneInputMore(cfg, inputs, k, r); }
      if !v.pc.Done? && VExpects(v, i) {
        StepBrings(v, i, r);
        assert EndsWith(cfg, inputs, n, r) <==> Brings(v, i, r);
      }
    }
  }
}
