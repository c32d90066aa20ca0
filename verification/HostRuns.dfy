/**
 What every run of the host keeps, over any number of viewers, timings, and relayed messages.
 */
module HostRuns {
  import opened Wrappers
  import opened Protocol
  import opened HostMachine
  import L = Limiter

  // What the host says to signaling while it serves one viewer.

  function ServerPart(out: seq<Out>): seq<HostToServer> {
    if out == [] then []
    else if out[0].ToServer? then [out[0].m] + ServerPart(out[1..])
    else ServerPart(out[1..])
  }

  /** What the host has said and is about to say. */
  function Planned(h: Host): seq<HostToServer> { h.said + ServerPart(h.out) }

  predicate IsReply(m: HostToServer) {
    m.HostRelay? && m.msg.Reply? && m.msg.macB.MacB? && m.msg.pb == m.msg.macB.t.pb
  }

  predicate IsReplyTo(m: HostToServer, t: Transcript) { m == HostRelay(Reply(t.pb, MacB(t))) }

  /** A reply and the answer sealed under the keys of the same transcript. */
  predicate IsReplyAnswer(s: seq<HostToServer>) {
    && |s| == 2 && IsReply(s[0])
    && s[1].HostRelay? && s[1].msg.Answer? && s[1].msg.sealedAnswer.Sealed?
    && s[1].msg.sealedAnswer.key == s[0].msg.macB.t && s[1].msg.sealedAnswer.dir == HostToViewer
    && s[1].msg.sealedAnswer.counter == 0 && s[1].msg.sealedAnswer.body.Sdp?
  }

  predicate IsRetryAfter(m: HostToServer) { m.HostRelay? && m.msg.RetryAfter? && m.msg.ms > 0 }

  const REJECTED := HostRelay(Rejected)

  /** The complete conversations that can lead to each outcome. */
  predicate Conversation(o: Outcome, s: seq<HostToServer>) {
    match o
    case Session(_) => IsReplyAnswer(s)
    case ViewerGone => s == []
    case LinkLost => Interrupted(s)
    case Failed(f) =>
      match f
      case WaitRequired => |s| == 2 && IsRetryAfter(s[0]) && s[1] == Kick
      case NoConfirm => (|s| == 1 && IsReply(s[0])) || (|s| == 2 && IsReply(s[0]) && s[1] == Kick)
      case WrongCode => |s| == 3 && IsReply(s[0]) && s[1] == REJECTED && s[2] == Kick
      case MalformedMsg =>
        || s == [REJECTED, Kick]
        || (|s| == 3 && IsReply(s[0]) && s[1] == REJECTED && s[2] == Kick)
        || (|s| == 3 && IsReplyAnswer(s[..2]) && s[2] == Kick)
      case Timeout(stage) =>
        if stage.PakeStage? then s == [Kick]
        else (stage.ConnectStage? || stage.HelloStage?) && |s| == 3 && IsReplyAnswer(s[..2]) && s[2] == Kick
      case TransportFailure =>
        || (|s| == 2 && IsReply(s[0]) && s[1] == Kick)
        || (|s| == 3 && IsReplyAnswer(s[..2]) && s[2] == Kick)
      case DeniedByUser => |s| == 3 && IsReplyAnswer(s[..2]) && s[2] == Kick
      case WrongVersion => |s| == 3 && IsReplyAnswer(s[..2]) && s[2] == Kick
      case BadViewerIdentity => |s| == 3 && IsReplyAnswer(s[..2]) && s[2] == Kick
  }

  /** What can have been said when signaling breaks. */
  predicate Interrupted(s: seq<HostToServer>) {
    || s == []
    || s == [REJECTED]
    || (|s| == 1 && (IsRetryAfter(s[0]) || IsReply(s[0])))
    || (|s| == 2 && IsReply(s[0]) && s[1] == REJECTED)
    || IsReplyAnswer(s)
  }

  predicate ReplyAnswerFor(s: seq<HostToServer>, e: Ends) {
    s == [HostRelay(Reply(e.t.pb, MacB(e.t))), HostRelay(Answer(Sealed(e.t, HostToViewer, 0, Sdp(e.local))))]
  }

  predicate OnlyServer(out: seq<Out>) { forall i :: 0 <= i < |out| ==> out[i].ToServer? }

  predicate Spoken(h: Host) {
    match h.pc
    case Idle => h.said == [] && h.out == []
    case AwaitStart => h.said == [] && h.out == []
    case AwaitConfirm(t) => OnlyServer(h.out) && |Planned(h)| == 1 && IsReplyTo(Planned(h)[0], t)
    case AwaitOpen(e) => OnlyServer(h.out) && ReplyAnswerFor(Planned(h), e)
    case AwaitHello(e) => ReplyAnswerFor(h.said, e) && (h.out == [] || (|h.out| == 1 && h.out[0].ToPeer?))
    case Asking(e, _, _) => ReplyAnswerFor(h.said, e) && h.out == []
    case Listening(e, _, _) => ReplyAnswerFor(h.said, e) && h.out == []
    case Granting(e, _) => ReplyAnswerFor(h.said, e) && h.out == [ToPeer(DecisionMsg(Accepted))]
    case Refusing(_, f) =>
      IsReplyAnswer(h.said) && (f.DeniedByUser? || f.WrongVersion? || f.BadViewerIdentity?)
      && |h.out| == 1 && h.out[0].ToPeer?
    case Lingering(f, _) =>
      IsReplyAnswer(h.said) && (f.DeniedByUser? || f.WrongVersion? || f.BadViewerIdentity?) && h.out == []
    case Finished(o) => OnlyServer(h.out) && Conversation(o, Planned(h))
  }

  lemma SentKeepsSpoken(h: Host, ok: bool, at: nat, luck: Luck)
    requires Spoken(h) && h.out != []
    ensures Spoken(SendDone(h, ok, at, luck))
  {
    var h' := SendDone(h, ok, at, luck);
    if h.out[0].ToServer? {
      assert h.said + ServerPart(h.out) == h.said + [h.out[0].m] + ServerPart(h.out[1..]);
      if ok {
        assert Planned(h') == Planned(h);
      } else {
        BrokenConversation(h);
      }
    } else {
      assert ServerPart(h.out[1..]) == [];
      assert h.said + [Kick] == h.said + ServerPart([ToServer(Kick)]);
      assert (h.said + [Kick])[..2] == h.said;
    }
  }

  /** Wherever signaling breaks, what was said so far is the beginning of a conversation. */
  lemma BrokenConversation(h: Host)
    requires Spoken(h) && h.out != [] && h.out[0].ToServer?
    ensures Interrupted(h.said)
  {
    var p := Planned(h);
    assert |p| > |h.said| && p[..|h.said|] == h.said;
    assert p == h.said + [h.out[0].m] + ServerPart(h.out[1..]);
    if |p| == 3 && |h.said| == 2 { assert p[..2] == h.said; }
  }

  lemma KickedSpoken(h: Host, f: AttemptFailure)
    requires Conversation(Failed(f), h.said + [Kick])
    ensures Spoken(Kicked(h, f))
  {
    assert ServerPart([ToServer(Kick)]) == [Kick];
  }

  lemma RejectedSpoken(h: Host, f: AttemptFailure)
    requires Conversation(Failed(f), h.said + [REJECTED, Kick])
    ensures Spoken(RejectRelay(h, f))
  {
    assert [ToServer(REJECTED), ToServer(Kick)][1..] == [ToServer(Kick)];
    assert ServerPart([ToServer(Kick)]) == [Kick];
    assert ServerPart([ToServer(REJECTED), ToServer(Kick)]) == [REJECTED, Kick];
  }

  lemma BeginSpoken(h: Host, at: nat)
    requires h.said == [] && h.out == []
    ensures Spoken(Begin(h, at))
  {
    match L.Check(h.limiter, at) {
      case Err(left) =>
        var r := HostRelay(RetryAfter(L.WaitMillis(left)));
        L.WaitMillisIsLeast(h.limiter, at, 0);
        assert [ToServer(r), ToServer(Kick)][1..] == [ToServer(Kick)];
        assert ServerPart([ToServer(Kick)]) == [Kick];
        assert ServerPart([ToServer(r), ToServer(Kick)]) == [r, Kick];
      case Ok(_) =>
    }
  }

  lemma HearStartSpoken(h: Host, r: LinkRecv<ServerToHost>, at: nat, luck: Luck)
    requires h.pc.AwaitStart? && h.said == [] && h.out == []
    ensures Spoken(HearStart(h, r, at, luck))
  {
    assert [] + [Kick] == [Kick] && [] + [REJECTED, Kick] == [REJECTED, Kick];
    RejectedSpoken(h, MalformedMsg);
    KickedSpoken(h, Timeout(PakeStage));
    var h' := HearStart(h, r, at, luck);
    if h'.pc.AwaitConfirm? { assert ServerPart(h'.out) == [h'.out[0].m]; }
  }

  lemma HearConfirmSpoken(h: Host, t: Transcript, r: LinkRecv<ServerToHost>, luck: Luck)
    requires |h.said| == 1 && IsReplyTo(h.said[0], t) && h.out == []
    ensures Spoken(HearConfirm(h, t, r, luck))
  {
    var h1 := h.(limiter := L.FRESH, log := h.log + [MacOk(t)]);
    assert |h.said + [REJECTED, Kick]| == 3;
    RejectedSpoken(h, WrongCode);
    RejectedSpoken(h, MalformedMsg);
    RejectedSpoken(h1, MalformedMsg);
    KickedSpoken(h1, TransportFailure);
    KickedSpoken(h, NoConfirm);
    var h' := HearConfirm(h, t, r, luck);
    if h'.pc.AwaitOpen? { assert ServerPart(h'.out) == [h'.out[0].m]; }
  }

  /** Once the answer is sent, every failure ends with a kick and nothing else. */
  lemma AnsweredKickSpoken(h: Host, f: AttemptFailure)
    requires IsReplyAnswer(h.said)
    requires f.MalformedMsg? || f.TransportFailure? || f.DeniedByUser? || f.WrongVersion? || f.BadViewerIdentity?
             || f == Timeout(ConnectStage) || f == Timeout(HelloStage)
    ensures Spoken(Kicked(h, f))
  {
    assert (h.said + [Kick])[..2] == h.said;
    KickedSpoken(h, f);
  }

  lemma OpeningSpoken(h: Host, how: Opened, known: bool)
    requires Spoken(h) && h.pc.AwaitOpen? && h.out == []
    ensures Spoken(Opening(h, how, known))
  {
    assert Planned(h) == h.said;
    AnsweredKickSpoken(h, BadViewerIdentity);
    AnsweredKickSpoken(h, Timeout(ConnectStage));
    AnsweredKickSpoken(h, TransportFailure);
  }

  lemma HearHelloSpoken(h: Host, e: Ends, n: Next, at: nat)
    requires ReplyAnswerFor(h.said, e) && h.out == [] && h.pc == AwaitHello(e)
    ensures Spoken(HearHello(h, e, n, at))
  {
    AnsweredKickSpoken(h, MalformedMsg);
    AnsweredKickSpoken(h, Timeout(HelloStage));
    AnsweredKickSpoken(h, TransportFailure);
  }

  lemma HearControlSpoken(h: Host, n: Next, at: nat)
    requires Spoken(h) && h.out == []
    ensures Spoken(HearControl(h, n, at))
  {
    match h.pc {
      case AwaitHello(e) => HearHelloSpoken(h, e, n, at);
      case Listening(_, _, _) =>
        AnsweredKickSpoken(h, MalformedMsg);
        AnsweredKickSpoken(h, TransportFailure);
      case Lingering(f, _) => AnsweredKickSpoken(h, f);
      case _ =>
    }
  }

  lemma HearApprovalSpoken(h: Host, answer: Option<bool>, at: nat)
    requires Spoken(h) && h.pc.Asking?
    ensures Spoken(HearApproval(h, answer, at))
  {
  }

  lemma StepKeepsSpoken(h: Host, i: Input)
    requires Spoken(h)
    ensures Spoken(Step(h, i))
  {
    if Expects(h, i) {
      var h1 := h.(now := TimeOf(i, h.now));
      assert Planned(h1) == Planned(h) && Spoken(h1);
      match i {
        case Sent(ok, at, luck) => SentKeepsSpoken(h1, ok, at, luck);
        case Heard(r, at, luck) =>
          assert Planned(h) == h.said;
          match h.pc {
            case Idle => BeginSpoken(h1, at);
            case AwaitStart => HearStartSpoken(h1, r, at, luck);
            case AwaitConfirm(t) => HearConfirmSpoken(h1, t, r, luck);
          }
        case OpenIn(how, known, _) => OpeningSpoken(h1, how, known);
        case ControlIn(n, at) => HearControlSpoken(h1, n, at);
        case ApprovalIn(answer, at) => HearApprovalSpoken(h1, answer, at);
        case Again =>
      }
    }
  }

  lemma {:induction false} RunKeepsSpoken(cfg: HostConfig, code: Code, inputs: seq<Input>)
    ensures Spoken(Run(Initial(cfg, code), inputs))
  {
    if inputs != [] {
      RunKeepsSpoken(cfg, code, inputs[..|inputs| - 1]);
      StepKeepsSpoken(Run(Initial(cfg, code), inputs[..|inputs| - 1]), inputs[|inputs| - 1]);
    }
  }

  /**
   Whenever the host has finished with a viewer, what it said to signaling is one of the conversations
   that belong to the outcome. In particular a granted session never kicks, a correct MAC precedes every
   answer, and a viewer is refused with a positive delay.
   */
  lemma WhatTheHostSays(cfg: HostConfig, code: Code, inputs: seq<Input>)
    requires Run(Initial(cfg, code), inputs).pc.Finished? && Run(Initial(cfg, code), inputs).out == []
    ensures
      var h := Run(Initial(cfg, code), inputs);
      Conversation(h.pc.outcome, h.said)
  {
    RunKeepsSpoken(cfg, code, inputs);
    var h := Run(Initial(cfg, code), inputs);
    assert Planned(h) == h.said;
  }

  /** Wherever signaling breaks, at a send or at a receive, what was said is the beginning of a conversation. */
  lemma WhatWasSaidWhenTheLinkBroke(cfg: HostConfig, code: Code, inputs: seq<Input>)
    requires Run(Initial(cfg, code), inputs).pc == Finished(LinkLost)
    ensures Run(Initial(cfg, code), inputs).out == [] && Interrupted(Run(Initial(cfg, code), inputs).said)
  {
    RunKeepsSpoken(cfg, code, inputs);
    RunStopsSilent(cfg, code, inputs);
    var h := Run(Initial(cfg, code), inputs);
    assert Planned(h) == h.said;
  }

  lemma {:induction false} RunStopsSilent(cfg: HostConfig, code: Code, inputs: seq<Input>)
    ensures Run(Initial(cfg, code), inputs).pc == Finished(LinkLost) ==> Run(Initial(cfg, code), inputs).out == []
    decreases |inputs|
  {
    if inputs != [] {
      RunStopsSilent(cfg, code, inputs[..|inputs| - 1]);
      StopsSilent(Run(Initial(cfg, code), inputs[..|inputs| - 1]), inputs[|inputs| - 1]);
    }
  }

  lemma StopsSilent(h: Host, i: Input)
    requires h.pc == Finished(LinkLost) ==> h.out == []
    ensures Step(h, i).pc == Finished(LinkLost) ==> Step(h, i).out == []
  {
  }

  // The order of what the host does.

  /** The event that must come immediately before. */
  predicate Follows(cfg: HostConfig, past: seq<HostEvent>, ev: HostEvent) {
    match ev
    case Began(_) => true
    case Replied(t, at, _) =>
      past != [] && past[|past| - 1].Began? && past[|past| - 1].at <= at && t.hostId == cfg.hostId && t.pa.Share?
    case MacOk(t) => past != [] && past[|past| - 1].Replied? && past[|past| - 1].t == t
    case Answered(e) => past != [] && past[|past| - 1] == MacOk(e.t)
    case HelloOk(e, viewer, hello) =>
      past != [] && past[|past| - 1] == Answered(e)
      && VerifyHello(hello, ViewerRole, e.t, e.remote, e.local) == Some(viewer) && hello.version == cfg.device.version
    case Granted(e, viewer) =>
      past != [] && past[|past| - 1].HelloOk? && past[|past| - 1].e == e && past[|past| - 1].viewer == viewer
    case AcceptSent(e, viewer) => past != [] && past[|past| - 1] == Granted(e, viewer)
  }

  predicate InOrder(cfg: HostConfig, log: seq<HostEvent>) {
    log != [] ==> InOrder(cfg, log[..|log| - 1]) && Follows(cfg, log[..|log| - 1], log[|log| - 1])
  }

  function Last(log: seq<HostEvent>): HostEvent
    requires log != []
  {
    log[|log| - 1]
  }

  /** The last event tells where the host is. */
  predicate AtEvent(h: Host) {
    match h.pc
    case AwaitStart => h.log != [] && Last(h.log).Began? && Last(h.log).at <= h.now
    case AwaitConfirm(t) => h.log != [] && Last(h.log).Replied? && Last(h.log).t == t && t.hostId == h.cfg.hostId
    case AwaitOpen(e) => h.log != [] && Last(h.log) == Answered(e)
    case AwaitHello(e) => h.log != [] && Last(h.log) == Answered(e)
    case Asking(e, viewer, _) =>
      h.log != [] && Last(h.log).HelloOk? && Last(h.log).e == e && Last(h.log).viewer == viewer
    case Listening(e, viewer, _) =>
      h.log != [] && Last(h.log).HelloOk? && Last(h.log).e == e && Last(h.log).viewer == viewer
    case Granting(e, viewer) => h.log != [] && Last(h.log) == Granted(e, viewer)
    case Finished(o) => o.Session? ==> h.log != [] && Last(h.log).AcceptSent? && Last(h.log).viewer == o.viewer
    case _ => true
  }

  lemma OrderAppend(cfg: HostConfig, log: seq<HostEvent>, ev: HostEvent)
    requires InOrder(cfg, log) && Follows(cfg, log, ev)
    ensures InOrder(cfg, log + [ev])
  {
    assert (log + [ev])[..|log|] == log;
  }

  lemma ConfirmKeepsOrder(h: Host, t: Transcript, r: LinkRecv<ServerToHost>, luck: Luck)
    requires InOrder(h.cfg, h.log) && AtEvent(h) && h.pc == AwaitConfirm(t)
    ensures
      var h' := HearConfirm(h, t, r, luck);
      InOrder(h.cfg, h'.log) && AtEvent(h') && h'.cfg == h.cfg
  {
    var h' := HearConfirm(h, t, r, luck);
    var log1 := h.log + [MacOk(t)];
    OrderAppend(h.cfg, h.log, MacOk(t));
    if |h'.log| == |h.log| + 2 { OrderAppend(h.cfg, log1, Last(h'.log)); }
  }

  lemma StartKeepsOrder(h: Host, r: LinkRecv<ServerToHost>, at: nat, luck: Luck)
    requires InOrder(h.cfg, h.log) && AtEvent(h) && h.pc.AwaitStart? && h.now == at
    ensures
      var h' := HearStart(h, r, at, luck);
      InOrder(h.cfg, h'.log) && AtEvent(h') && h'.cfg == h.cfg
  {
    OneEventKeepsOrder(h, HearStart(h, r, at, luck));
  }

  lemma IdleKeepsOrder(h: Host, r: LinkRecv<ServerToHost>, at: nat, luck: Luck)
    requires InOrder(h.cfg, h.log) && AtEvent(h) && h.pc.Idle? && h.now == at
    ensures
      var h' := Hear(h, r, at, luck);
      InOrder(h.cfg, h'.log) && AtEvent(h') && h'.cfg == h.cfg
  {
    if r == Got(ViewerJoined) { OrderAppend(h.cfg, h.log, Began(at)); }
  }

  lemma HeardKeepsOrder(h: Host, r: LinkRecv<ServerToHost>, at: nat, luck: Luck)
    requires InOrder(h.cfg, h.log) && AtEvent(h) && h.now == at
    ensures InOrder(h.cfg, Hear(h, r, at, luck).log) && AtEvent(Hear(h, r, at, luck)) && Hear(h, r, at, luck).cfg == h.cfg
  {
    match h.pc {
      case Idle => IdleKeepsOrder(h, r, at, luck);
      case AwaitStart => StartKeepsOrder(h, r, at, luck);
      case AwaitConfirm(t) => ConfirmKeepsOrder(h, t, r, luck);
      case _ =>
    }
  }

  /** Every other handler logs at most one event. */
  lemma OneEventKeepsOrder(h: Host, h': Host)
    requires InOrder(h.cfg, h.log)
    requires h'.log == h.log
             || (|h'.log| == |h.log| + 1 && h'.log == h.log + [Last(h'.log)] && Follows(h.cfg, h.log, Last(h'.log)))
    ensures InOrder(h.cfg, h'.log)
  {
    if h'.log != h.log { OrderAppend(h.cfg, h.log, Last(h'.log)); }
  }

  lemma ControlKeepsOrder(h: Host, n: Next, at: nat)
    requires InOrder(h.cfg, h.log) && AtEvent(h)
    ensures InOrder(h.cfg, HearControl(h, n, at).log) && AtEvent(HearControl(h, n, at)) && HearControl(h, n, at).cfg == h.cfg
  {
    OneEventKeepsOrder(h, HearControl(h, n, at));
  }

  lemma ApprovalKeepsOrder(h: Host, answer: Option<bool>, at: nat)
    requires InOrder(h.cfg, h.log) && AtEvent(h)
    ensures
      var h' := HearApproval(h, answer, at);
      InOrder(h.cfg, h'.log) && AtEvent(h') && h'.cfg == h.cfg
  {
    OneEventKeepsOrder(h, HearApproval(h, answer, at));
  }

  lemma SentKeepsOrder(h: Host, ok: bool, at: nat, luck: Luck)
    requires InOrder(h.cfg, h.log) && AtEvent(h) && h.out != []
    ensures
      var h' := SendDone(h, ok, at, luck);
      InOrder(h.cfg, h'.log) && AtEvent(h') && h'.cfg == h.cfg
  {
    OneEventKeepsOrder(h, SendDone(h, ok, at, luck));
  }

  lemma StepKeepsOrder(h: Host, i: Input)
    requires InOrder(h.cfg, h.log) && AtEvent(h)
    ensures InOrder(h.cfg, Step(h, i).log) && AtEvent(Step(h, i)) && Step(h, i).cfg == h.cfg
  {
    if Expects(h, i) {
      var h1 := h.(now := TimeOf(i, h.now));
      assert AtEvent(h1);
      match i {
        case Heard(r, at, luck) => HeardKeepsOrder(h1, r, at, luck);
        case Sent(ok, at, luck) => SentKeepsOrder(h1, ok, at, luck);
        case ControlIn(n, at) => ControlKeepsOrder(h1, n, at);
        case ApprovalIn(answer, at) => ApprovalKeepsOrder(h1, answer, at);
        case _ =>
      }
    }
  }

  lemma {:induction false} RunKeepsOrder(cfg: HostConfig, code: Code, inputs: seq<Input>)
    ensures
      var h := Run(Initial(cfg, code), inputs);
      h.cfg == cfg && InOrder(cfg, h.log) && AtEvent(h)
  {
    if inputs != [] {
      RunKeepsOrder(cfg, code, inputs[..|inputs| - 1]);
      StepKeepsOrder(Run(Initial(cfg, code), inputs[..|inputs| - 1]), inputs[|inputs| - 1]);
    }
  }

  lemma {:induction false} OrderAt(cfg: HostConfig, log: seq<HostEvent>, i: nat)
    requires InOrder(cfg, log) && i < |log|
    ensures Follows(cfg, log[..i], log[i])
  {
    if i < |log| - 1 {
      OrderAt(cfg, log[..|log| - 1], i);
      assert log[..|log| - 1][..i] == log[..i];
    }
  }

  /**
   Before the host tells a viewer that it is accepted, and with nothing in between, it began the attempt,
   replied, verified the viewer's MAC, answered, verified the viewer's hello for these very ends with an
   equal version, and was given a yes.
   */
  lemma AcceptanceIsEarned(cfg: HostConfig, code: Code, inputs: seq<Input>, i: nat)
    requires i < |Run(Initial(cfg, code), inputs).log| && Run(Initial(cfg, code), inputs).log[i].AcceptSent?
    ensures
      var log := Run(Initial(cfg, code), inputs).log;
      var (e, viewer) := (log[i].e, log[i].viewer);
      && i >= 6
      && log[i - 6].Began? && log[i - 5].Replied? && log[i - 5].t == e.t && log[i - 6].at <= log[i - 5].at
      && log[i - 4] == MacOk(e.t)
      && log[i - 3] == Answered(e)
      && log[i - 2].HelloOk? && log[i - 2].e == e && log[i - 2].viewer == viewer
      && VerifyHello(log[i - 2].hello, ViewerRole, e.t, e.remote, e.local) == Some(viewer)
      && log[i - 2].hello.version == cfg.device.version
      && log[i - 1] == Granted(e, viewer)
  {
    RunKeepsOrder(cfg, code, inputs);
    EarnedIn(cfg, Run(Initial(cfg, code), inputs).log, i);
  }

  lemma EarnedIn(cfg: HostConfig, log: seq<HostEvent>, i: nat)
    requires InOrder(cfg, log) && i < |log| && log[i].AcceptSent?
    ensures i >= 6
    ensures
      var (e, viewer) := (log[i].e, log[i].viewer);
      && log[i - 6].Began? && log[i - 5].Replied? && log[i - 5].t == e.t && log[i - 6].at <= log[i - 5].at
      && log[i - 4] == MacOk(e.t)
      && log[i - 3] == Answered(e)
      && log[i - 2].HelloOk? && log[i - 2].e == e && log[i - 2].viewer == viewer
      && VerifyHello(log[i - 2].hello, ViewerRole, e.t, e.remote, e.local) == Some(viewer)
      && log[i - 2].hello.version == cfg.device.version
      && log[i - 1] == Granted(e, viewer)
  {
    OrderAt(cfg, log, i);
    OrderAt(cfg, log, i - 1);
    OrderAt(cfg, log, i - 2);
    OrderAt(cfg, log, i - 3);
    OrderAt(cfg, log, i - 4);
    OrderAt(cfg, log, i - 5);
  }

  // The price of guessing.

  /** The replies since the last confirmed MAC: when, and for which code. */
  function Unconfirmed(log: seq<HostEvent>): seq<(nat, nat)> {
    if log == [] then []
    else if Last(log).MacOk? then []
    else if Last(log).Replied? then Unconfirmed(log[..|log| - 1]) + [(Last(log).at, Last(log).draw)]
    else Unconfirmed(log[..|log| - 1])
  }

  function Times(replies: seq<(nat, nat)>): (ts: seq<nat>)
    ensures |ts| == |replies|
  {
    seq(|replies|, i requires 0 <= i < |replies| => replies[i].0)
  }

  /** The `i`-th unconfirmed reply in a row used the code drawn `i / 5` codes after the first one. */
  predicate InEpochs(replies: seq<(nat, nat)>, base: nat) {
    forall i :: 0 <= i < |replies| ==> replies[i].1 == base + i / L.FAILURES_PER_CODE
  }

  predicate Priced(replies: seq<(nat, nat)>) {
    && L.Paced(Times(replies), 1)
    && (replies != [] ==> InEpochs(replies, replies[0].1))
  }

  predicate AllPriced(log: seq<HostEvent>) {
    Priced(Unconfirmed(log)) && (log != [] ==> AllPriced(log[..|log| - 1]))
  }

  predicate Confirmed(pc: Pc) {
    pc.AwaitOpen? || pc.AwaitHello? || pc.Asking? || pc.Listening? || pc.Granting?
  }

  ghost predicate Braked(h: Host) {
    var u := Unconfirmed(h.log);
    && AllPriced(h.log)
    && |u| == h.limiter.consecutiveFailures
    && (if u == [] then L.Regular(h.limiter, 0) else L.Regular(h.limiter, u[|u| - 1].0))
    && (u != [] ==> h.draws == u[0].1 + |u| / L.FAILURES_PER_CODE)
    && (h.pc.AwaitStart? ==> L.Check(h.limiter, h.now).Ok?)
    && (Confirmed(h.pc) ==> u == [])
  }

  lemma PlainEventKeepsPrice(log: seq<HostEvent>, ev: HostEvent)
    requires AllPriced(log) && !ev.Replied?
    ensures AllPriced(log + [ev])
    ensures Unconfirmed(log + [ev]) == if ev.MacOk? then [] else Unconfirmed(log)
  {
    assert (log + [ev])[..|log|] == log;
    assert Times([]) == [];
  }

  lemma ReplyKeepsPrice(h: Host, pa: Share, at: nat, luck: Luck)
    requires Braked(h) && h.pc.AwaitStart? && at == h.now
    ensures Braked(Respond(h, pa, at, luck))
  {
    var h' := Respond(h, pa, at, luck);
    var ev := Last(h'.log);
    var (u, u') := (Unconfirmed(h.log), Unconfirmed(h.log) + [(at, h.draws)]);
    assert h'.log[..|h.log|] == h.log;
    assert Unconfirmed(h'.log) == u';
    assert Times(u') == Times(u) + [at];
    var n := |u|;
    L.FailureKeepsRegular(h.limiter, if u == [] then 0 else u[n - 1].0, at);
    assert n / 5 * 5 + n % 5 == n;
    if n % 5 == 4 { assert (n + 1) / 5 == n / 5 + 1; } else { assert (n + 1) / 5 == n / 5; }
  }

  /** Events other than replies and MACs change neither the limiter nor, but for the last one, the code. */
  predicate PlainStep(h: Host, h': Host) {
    && h'.limiter == h.limiter
    && (h'.log == h.log ||
        (|h'.log| == |h.log| + 1 && h'.log == h.log + [Last(h'.log)] && !Last(h'.log).MacOk? && !Last(h'.log).Replied?))
    && (h'.pc.AwaitStart? ==> h.pc.AwaitStart? || L.Check(h'.limiter, h'.now).Ok?)
    && (Confirmed(h'.pc) ==> Confirmed(h.pc))
    && (h'.log != h.log && Last(h'.log).AcceptSent? ==> Confirmed(h.pc))
    && h'.draws == (if h'.log != h.log && Last(h'.log).AcceptSent? then h.draws + 1 else h.draws)
    && (h'.draws == h.draws ==> h'.code == h.code)
  }

  lemma OtherStepsArePlain(h: Host, i: Input)
    requires !i.Heard?
    ensures PlainStep(h, Step(h, i)) || !Expects(h, i)
    ensures h.draws != Step(h, i).draws ==> i.Sent? && Step(h, i).code == i.luck.code
  {
  }

  lemma HeardStepKinds(h: Host, r: LinkRecv<ServerToHost>, at: nat, luck: Luck)
    requires h.now == at
    ensures
      var h' := Hear(h, r, at, luck);
      || PlainStep(h, h')
      || (h.pc.AwaitStart? && r.Got? && r.msg.RelayToHost? && r.msg.payload.Pake? && r.msg.payload.msg.Start?
          && h' == Respond(h, r.msg.payload.msg.pa, at, luck))
      || (h.pc.AwaitConfirm? && MacStep(h, h'))
    ensures h.draws != Hear(h, r, at, luck).draws ==> Hear(h, r, at, luck).code == luck.code
  {
  }

  predicate MacStep(h: Host, h': Host)
  {
    && h.pc.AwaitConfirm?
    && (h'.log == h.log + [MacOk(h.pc.t)]
        || (|h'.log| == |h.log| + 2 && Last(h'.log).Answered? && h'.log == h.log + [MacOk(h.pc.t)] + [Last(h'.log)]))
    && h'.limiter == L.FRESH && h'.draws == h.draws && h'.code == h.code && !h'.pc.AwaitStart?
  }

  lemma PlainKeepsBrake(h: Host, h': Host)
    requires Braked(h) && PlainStep(h, h') && h'.now == h.now
    ensures Braked(h')
  {
    if h'.log != h.log { PlainEventKeepsPrice(h.log, Last(h'.log)); }
  }

  lemma MacKeepsBrake(h: Host, h': Host)
    requires Braked(h) && MacStep(h, h')
    ensures Braked(h')
  {
    var log1 := h.log + [MacOk(h.pc.t)];
    PlainEventKeepsPrice(h.log, MacOk(h.pc.t));
    if h'.log != log1 { PlainEventKeepsPrice(log1, Last(h'.log)); }
  }

  lemma StepKeepsBrake(h: Host, i: Input)
    requires Braked(h)
    ensures Braked(Step(h, i))
  {
    if Expects(h, i) {
      var h1 := h.(now := TimeOf(i, h.now));
      assert Braked(h1);
      if i.Heard? {
        var h' := Hear(h1, i.r, i.at, i.luck);
        HeardStepKinds(h1, i.r, i.at, i.luck);
        if PlainStep(h1, h') {
          PlainKeepsBrake(h1, h');
        } else if h.pc.AwaitConfirm? {
          MacKeepsBrake(h1, h');
        } else {
          ReplyKeepsPrice(h1, i.r.msg.payload.msg.pa, i.at, i.luck);
        }
      } else {
        StepFromItsTime(h, i);
        OtherStepsArePlain(h1, i);
        PlainKeepsBrake(h1, Step(h1, i));
      }
    }
  }

  lemma StepFromItsTime(h: Host, i: Input)
    requires Expects(h, i)
    ensures
      var h1 := h.(now := TimeOf(i, h.now));
      Expects(h1, i) && Step(h1, i) == Step(h, i) && Step(h1, i).now == h1.now
  {
  }

  lemma {:induction false} RunKeepsBrake(cfg: HostConfig, code: Code, inputs: seq<Input>)
    ensures Braked(Run(Initial(cfg, code), inputs))
  {
    if inputs == [] {
      assert Times([]) == [];
    } else {
      RunKeepsBrake(cfg, code, inputs[..|inputs| - 1]);
      StepKeepsBrake(Run(Initial(cfg, code), inputs[..|inputs| - 1]), inputs[|inputs| - 1]);
    }
  }

  predicate NoMac(log: seq<HostEvent>) { forall i :: 0 <= i < |log| ==> !log[i].MacOk? }

  /** All replies in a stretch of the log. */
  function Replies(log: seq<HostEvent>): seq<(nat, nat)> {
    if log == [] then []
    else if Last(log).Replied? then Replies(log[..|log| - 1]) + [(Last(log).at, Last(log).draw)]
    else Replies(log[..|log| - 1])
  }

  lemma {:induction false} UnconfirmedSplits(a: seq<HostEvent>, b: seq<HostEvent>)
    requires NoMac(b)
    ensures Unconfirmed(a + b) == Unconfirmed(a) + Replies(b)
  {
    if b == [] {
      assert a + b == a;
    } else {
      var b' := b[..|b| - 1];
      UnconfirmedSplits(a, b');
      assert (a + b)[..|a + b| - 1] == a + b';
      assert Last(a + b) == Last(b);
    }
  }

  lemma {:induction false} PricedPrefix(log: seq<HostEvent>, j: nat)
    requires AllPriced(log) && j <= |log|
    ensures Priced(Unconfirmed(log[..j]))
    decreases |log|
  {
    if j == |log| {
      assert log[..j] == log;
    } else {
      PricedPrefix(log[..|log| - 1], j);
      assert log[..|log| - 1][..j] == log[..j];
    }
  }

  /**
   The guess rate. In any stretch of any run in which no MAC is confirmed, `k + 1` replies take at least
   `TotalWait(k)` seconds; and replies for the same code are at most five, one after the other.
   */
  lemma GuessRate(cfg: HostConfig, code: Code, inputs: seq<Input>, i: nat, j: nat)
    requires i <= j <= |Run(Initial(cfg, code), inputs).log|
    requires NoMac(Run(Initial(cfg, code), inputs).log[i..j])
    ensures
      var replies := Replies(Run(Initial(cfg, code), inputs).log[i..j]);
      var n := |replies|;
      && (n > 0 ==> replies[n - 1].0 >= replies[0].0 + L.TotalWait(n - 1) * L.NANOS_PER_SECOND)
      && forall a, b :: 0 <= a <= b < n && replies[a].1 == replies[b].1 ==> b - a < 5
  {
    RunKeepsBrake(cfg, code, inputs);
    GuessRateIn(Run(Initial(cfg, code), inputs).log, i, j);
  }

  lemma RepliesTakeTime(before: seq<(nat, nat)>, replies: seq<(nat, nat)>)
    requires L.Paced(Times(before + replies), 1) && replies != []
    ensures
      var n := |replies|;
      replies[n - 1].0 >= replies[0].0 + L.TotalWait(n - 1) * L.NANOS_PER_SECOND
  {
    var (m, all, times) := (|before|, Times(before + replies), Times(replies));
    assert forall k :: 0 <= k < |replies| ==> times[k] == all[m + k];
    assert L.Paced(times, m + 1) by {
      forall k | 0 <= k < |times| - 1 ensures times[k + 1] >= times[k] + L.Backoff(m + 1 + k) * L.NANOS_PER_SECOND {
        assert all[(m + k) + 1] >= all[m + k] + L.Backoff(1 + (m + k)) * L.NANOS_PER_SECOND;
      }
    }
    L.GuessingTakes(times, m + 1);
  }

  lemma FivePerCode(before: seq<(nat, nat)>, replies: seq<(nat, nat)>, base: nat, a: nat, b: nat)
    requires InEpochs(before + replies, base) && a <= b < |replies| && replies[a].1 == replies[b].1
    ensures b - a < 5
  {
    var (m, all) := (|before|, before + replies);
    assert all[m + a].1 == base + (m + a) / 5;
    assert all[m + b].1 == base + (m + b) / 5;
  }

  lemma GuessRateIn(log: seq<HostEvent>, i: nat, j: nat)
    requires AllPriced(log) && i <= j <= |log| && NoMac(log[i..j])
    ensures
      var replies := Replies(log[i..j]);
      var n := |replies|;
      && (n > 0 ==> replies[n - 1].0 >= replies[0].0 + L.TotalWait(n - 1) * L.NANOS_PER_SECOND)
      && forall a, b :: 0 <= a <= b < n && replies[a].1 == replies[b].1 ==> b - a < 5
  {
    PricedPrefix(log, j);
    assert log[..j] == log[..i] + log[i..j];
    UnconfirmedSplits(log[..i], log[i..j]);
    var (before, replies) := (Unconfirmed(log[..i]), Replies(log[i..j]));
    assert Priced(before + replies);
    if replies != [] {
      RepliesTakeTime(before, replies);
      forall a, b | 0 <= a <= b < |replies| && replies[a].1 == replies[b].1 ensures b - a < 5 {
        FivePerCode(before, replies, (before + replies)[0].1, a, b);
      }
    }
  }

  /**
   The one-time code changes exactly when the fifth consecutive unconfirmed reply is prepared and when a
   session is reached; every other step leaves it alone.
   */
  lemma CodeChangesExactly(cfg: HostConfig, code: Code, inputs: seq<Input>, i: Input)
    ensures
      var h := Run(Initial(cfg, code), inputs);
      var h' := Step(h, i);
      var fifth := h'.log != h.log && Last(h'.log).Replied? && |Unconfirmed(h'.log)| % 5 == 0;
      var session := h'.log != h.log && Last(h'.log).AcceptSent?;
      && h'.draws == (if fifth || session then h.draws + 1 else h.draws)
      && (!fifth && !session ==> h'.code == h.code)
      && (fifth || session ==> (i.Heard? || i.Sent?) && h'.code == i.luck.code)
  {
    RunKeepsBrake(cfg, code, inputs);
    CodeChangesIn(Run(Initial(cfg, code), inputs), i);
  }

  lemma CodeChangesIn(h: Host, i: Input)
    requires Braked(h)
    ensures
      var h' := Step(h, i);
      var fifth := h'.log != h.log && Last(h'.log).Replied? && |Unconfirmed(h'.log)| % 5 == 0;
      var session := h'.log != h.log && Last(h'.log).AcceptSent?;
      && h'.draws == (if fifth || session then h.draws + 1 else h.draws)
      && (!fifth && !session ==> h'.code == h.code)
      && (fifth || session ==> (i.Heard? || i.Sent?) && h'.code == i.luck.code)
  {
    if Expects(h, i) {
      var h1 := h.(now := TimeOf(i, h.now));
      if !i.Heard? {
        StepFromItsTime(h, i);
        OtherStepsArePlain(h1, i);
      } else {
        HeardStepKinds(h1, i.r, i.at, i.luck);
        if !PlainStep(h1, Step(h, i)) && h.pc.AwaitStart? { ReplyCounts(h1, i.r.msg.payload.msg.pa, i.at, i.luck); }
      }
    }
  }

  lemma ReplyCounts(h: Host, pa: Share, at: nat, luck: Luck)
    requires Braked(h)
    ensures
      var h' := Respond(h, pa, at, luck);
      && |Unconfirmed(h'.log)| == |Unconfirmed(h.log)| + 1
      && L.Failed(h.limiter, at).1 == (|Unconfirmed(h'.log)| % 5 == 0)
  {
    var h' := Respond(h, pa, at, luck);
    assert h'.log[..|h.log|] == h.log;
    var u := Unconfirmed(h.log);
    L.FailureKeepsRegular(h.limiter, if u == [] then 0 else u[|u| - 1].0, at);
  }
}
