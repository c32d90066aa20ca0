/**
 One host and one viewer on the in-memory hub, both following the protocol, in every interleaving in which
 nothing times out.

 Two theorems: with the same code and host ID, equal versions and an approval, every interleaving ends in a
 session on both sides, after a bounded number of steps; and while the host's limiter is closed, every
 interleaving ends with the viewer being told how long to wait.
 */
module HonestPair {
  import opened Wrappers
  import opened Protocol
  import opened HostMachine
  import opened ViewerMachine
  import opened FakeHub
  import L = Limiter

  /** The two parties, and what chance decides for them: both shares and both fingerprints. */
  datatype Plan = Plan(
    host: HostConfig, viewer: ViewerConfig, pa: Share, pb: Share, viewerFp: Fingerprint, hostFp: Fingerprint)

  /**
   The viewer is generation `g` of the hub; `leftover` counts the entries of the host's queue that earlier
   viewers left behind. `toHost` and `toViewer` are the two directions of the data channel. `patience` is how
   many more times the user may be asked without answering.
   */
  datatype Pair = Pair(
    plan: Plan, hub: Hub, g: nat, leftover: nat, host: Host, viewer: Viewer,
    toHost: seq<Control>, toViewer: seq<Control>, patience: nat)

  predicate OnHub(p: Pair) { Valid(p.hub) && p.g < |p.hub.links| }

  datatype Act = HostActs(i: Input) | ViewerActs(vi: ViewerInput)

  function TheTranscript(k: Plan): Transcript { Transcript(k.viewer.code, k.viewer.hostId, k.pa, k.pb) }

  function HostEnds(k: Plan): Ends { Ends(TheTranscript(k), k.hostFp, k.viewerFp) }

  function ViewerEnds(k: Plan): Ends { Ends(TheTranscript(k), k.viewerFp, k.hostFp) }

  /** The viewer has both descriptions, so the connection can come up. */
  predicate ViewerCanConnect(v: Viewer) {
    v.pc.AwaitChannel? || v.pc.AwaitHostHello? || v.pc.AwaitDecision? || (v.pc.Done? && v.pc.result.Ok?)
  }

  /** A step that can happen here, without a timeout, a refusal, or a local failure. */
  predicate Prompt(p: Pair, a: Act)
    requires OnHub(p)
  {
    match a
    case HostActs(i) =>
      && Expects(p.host, i)
      && (match i
          case Heard(r, _, luck) =>
            && p.hub.hostQueue != [] && r == HostRecv(p.hub).1
            && luck.peerMade && luck.pb == p.plan.pb && luck.local == p.plan.hostFp
          case Sent(ok, _, _) => ok
          case OpenIn(how, known, _) => how == Ready && known && ViewerCanConnect(p.viewer)
          case ControlIn(n, _) =>
            if p.toHost != [] then n == Msg(p.toHost[0]) else p.host.pc.Listening? && n == TimedOut
          case ApprovalIn(answer, at) =>
            answer == Some(true) || (answer == None && p.patience > 0 && p.host.pc.Asking? && at < p.host.pc.deadline)
          case Again => false)
    case ViewerActs(vi) =>
      && VExpects(p.viewer, vi)
      && (match vi
          case VHeard(r, luck) =>
            && r == ViewerRecv(p.hub, p.g).1 && r != Quiet
            && luck == ViewerLuck(true, p.plan.pa, true, true, p.plan.viewerFp)
          case VSent(sent) =>
            if p.viewer.out[0].ToRelay? then
              sent == if ViewerSend(p.hub, p.g, Pake(p.viewer.out[0].m)).1.Ok? then SendOk else SendClosed
            else sent == SendOk
          case VOpenIn(how, known) => how == Ready && known
          case VControlIn(n) => p.toViewer != [] && n == Msg(p.toViewer[0]))
  }

  function PStep(p: Pair, a: Act): Pair
    requires OnHub(p) && Prompt(p, a)
  {
    match a
    case HostActs(i) =>
      var p1 := p.(host := Step(p.host, i));
      (match i
       case Heard(_, _, _) => p1.(hub := HostRecv(p.hub).0, leftover := if p.leftover > 0 then p.leftover - 1 else 0)
       case Sent(_, _, _) =>
         if p.host.out[0].ToServer? then p1.(hub := HostSend(p.hub, p.host.out[0].m))
         else p1.(toViewer := p.toViewer + [p.host.out[0].c])
       case ControlIn(n, _) => if n.Msg? then p1.(toHost := p.toHost[1..]) else p1
       case ApprovalIn(answer, _) => if answer.None? then p1.(patience := p.patience - 1) else p1
       case _ => p1)
    case ViewerActs(vi) =>
      var p1 := p.(viewer := VStep(p.viewer, vi));
      (match vi
       case VHeard(_, _) => p1.(hub := ViewerRecv(p.hub, p.g).0)
       case VSent(_) =>
         if p.viewer.out[0].ToRelay? then p1.(hub := ViewerSend(p.hub, p.g, Pake(p.viewer.out[0].m)).0)
         else p1.(toHost := p.toHost + [p.viewer.out[0].c])
       case VControlIn(_) => p1.(toViewer := p.toViewer[1..])
       case _ => p1)
  }

  /**
   The viewer has just joined a hub whose host is waiting for one. Any number of viewers may have been there
   before, and may have left anything in the host's queue but an announcement that the host has not yet heard;
   the last of them may even still have the slot, which this one then takes.
   */
  predicate JustJoined(p: Pair, before: Hub) {
    && Valid(before) && ViewerJoined !in before.hostQueue
    && p.hub == Join(before) && p.g == |before.links| && p.leftover == |before.hostQueue|
    && p.host.pc == Idle && p.host.out == [] && p.host.cfg == p.plan.host
    && p.viewer == VInitial(p.plan.viewer)
    && p.toHost == [] && p.toViewer == []
  }

  /** What earlier viewers left comes first, and is gone once this viewer is announced. */
  predicate QueueIs(p: Pair, inbox: seq<ServerToHost>) {
    && p.leftover <= |p.hub.hostQueue| && p.hub.hostQueue[p.leftover..] == inbox
    && (forall i :: 0 <= i < p.leftover ==> p.hub.hostQueue[i] != ViewerJoined)
    && (p.leftover > 0 ==> p.host.pc.Idle?)
  }

  // Every interleaving connects.

  /** The two sides fit: same code and host ID, equal versions, real shares, and no guessing going on. */
  predicate WillAgree(p: Pair) {
    && p.plan.host.hostId == p.plan.viewer.hostId && p.plan.host.device.version == PROTOCOL_VERSION
    && p.plan.pa.Share? && p.plan.pb.Share?
  }

  /** How far the host has come. */
  function HostStage(h: Host): nat {
    match h.pc
    case Idle => 0
    case AwaitStart => 1
    case AwaitConfirm(_) => if h.out != [] then 2 else 3
    case AwaitOpen(_) => if h.out != [] then 4 else 5
    case AwaitHello(_) => if h.out != [] then 6 else 7
    case Asking(_, _, _) => 8
    case Listening(_, _, _) => 8
    case Granting(_, _) => 9
    case _ => 10
  }

  function ViewerStage(v: Viewer): nat {
    match v.pc
    case AwaitJoined => 0
    case AwaitReply(_) => if v.out != [] then 1 else 2
    case AwaitAnswer(_, _) => if v.out != [] then 3 else 4
    case AwaitChannel(_) => 5
    case AwaitHostHello(_) => if v.out != [] then 6 else 7
    case AwaitDecision(_, _) => 8
    case Done(_) => 9
  }

  function StartMsg(k: Plan): PakeMsg { Start(k.pa) }
  function ReplyMsg(k: Plan): PakeMsg { Reply(k.pb, MacB(TheTranscript(k))) }
  function ConfirmMsg(k: Plan): PakeMsg {
    Confirm(MacA(TheTranscript(k)), Sealed(TheTranscript(k), ViewerToHost, 0, Sdp(k.viewerFp)))
  }
  function AnswerMsg(k: Plan): PakeMsg { Answer(Sealed(TheTranscript(k), HostToViewer, 0, Sdp(k.hostFp))) }
  function HostHello(k: Plan): Control {
    HelloMsg(MakeHello(k.host.device, HostRole, TheTranscript(k), k.hostFp, k.viewerFp))
  }
  function ViewerHello(k: Plan): Control {
    HelloMsg(MakeHello(AsViewer(k.viewer.device), ViewerRole, TheTranscript(k), k.viewerFp, k.hostFp))
  }
  function TheHost(k: Plan): PeerIdentity { IdentityOf(k.host.device) }
  function TheViewer(k: Plan): PeerIdentity { IdentityOf(k.viewer.device) }

  /** The host is exactly where a good connection has it. */
  predicate HostOnTrack(p: Pair) {
    var (h, t, e) := (p.host, TheTranscript(p.plan), HostEnds(p.plan));
    match h.pc
    case Idle => h.out == [] && h.code == p.plan.viewer.code && L.Check(h.limiter, h.now).Ok?
    case AwaitStart => h.out == [] && h.code == p.plan.viewer.code
    case AwaitConfirm(t') => t' == t && (h.out == [] || h.out == [ToServer(HostRelay(ReplyMsg(p.plan)))])
    case AwaitOpen(e') => e' == e && (h.out == [] || h.out == [ToServer(HostRelay(AnswerMsg(p.plan)))])
    case AwaitHello(e') => e' == e && (h.out == [] || h.out == [ToPeer(HostHello(p.plan))])
    case Asking(e', viewer, _) => e' == e && viewer == TheViewer(p.plan) && h.out == []
    case Listening(e', viewer, _) => e' == e && viewer == TheViewer(p.plan) && h.out == []
    case Granting(e', viewer) => e' == e && viewer == TheViewer(p.plan) && h.out == [ToPeer(DecisionMsg(Accepted))]
    case Finished(o) => o == Session(TheViewer(p.plan)) && h.out == []
    case _ => false
  }

  predicate ViewerOnTrack(p: Pair) {
    var (v, t, e) := (p.viewer, TheTranscript(p.plan), ViewerEnds(p.plan));
    match v.pc
    case AwaitJoined => v.out == []
    case AwaitReply(pa) => pa == p.plan.pa && (v.out == [] || v.out == [ToRelay(StartMsg(p.plan))])
    case AwaitAnswer(t', local) =>
      t' == t && local == p.plan.viewerFp && (v.out == [] || v.out == [ToRelay(ConfirmMsg(p.plan))])
    case AwaitChannel(e') => e' == e && v.out == []
    case AwaitHostHello(e') => e' == e && (v.out == [] || v.out == [ToHost(ViewerHello(p.plan))])
    case AwaitDecision(e', host) => e' == e && host == TheHost(p.plan) && v.out == []
    case Done(r) => r == Ok(TheHost(p.plan)) && v.out == []
  }

  /** Neither side runs ahead of what it has to hear first. */
  predicate InStep(hs: nat, vs: nat) {
    && (hs >= 2 ==> vs >= 2) && (hs >= 4 ==> vs >= 4) && (hs >= 6 ==> vs >= 5) && (hs >= 8 ==> vs >= 7)
    && (vs >= 3 ==> hs >= 3) && (vs >= 5 ==> hs >= 5) && (vs >= 8 ==> hs >= 7) && (vs >= 9 ==> hs >= 10)
  }

  function If<T>(b: bool, x: T): seq<T> { if b then [x] else [] }

  /** What each queue holds: what was sent and not yet taken. */
  function HostInbox(k: Plan, hs: nat, vs: nat): seq<ServerToHost> {
    If(hs < 1, ViewerJoined)
    + If(vs >= 2 && hs < 2, RelayToHost(Pake(StartMsg(k))))
    + If(vs >= 4 && hs < 4, RelayToHost(Pake(ConfirmMsg(k))))
  }

  function ViewerInbox(k: Plan, hs: nat, vs: nat): seq<Envelope> {
    If(vs < 1, Deliver(Joined))
    + If(hs >= 3 && vs < 3, Deliver(RelayToViewer(Pake(ReplyMsg(k)))))
    + If(hs >= 5 && vs < 5, Deliver(RelayToViewer(Pake(AnswerMsg(k)))))
  }

  function HostControls(k: Plan, hs: nat, vs: nat): seq<Control> { If(vs >= 7 && hs < 8, ViewerHello(k)) }

  function ViewerControls(k: Plan, hs: nat, vs: nat): seq<Control> {
    If(hs >= 7 && vs < 8, HostHello(k)) + If(hs >= 10 && vs < 9, DecisionMsg(Accepted))
  }

  predicate Joint(p: Pair) {
    var (hs, vs) := (HostStage(p.host), ViewerStage(p.viewer));
    && p.host.cfg == p.plan.host && p.viewer.cfg == p.plan.viewer
    && WillAgree(p) && HostOnTrack(p) && ViewerOnTrack(p) && InStep(hs, vs)
    && OnHub(p) && p.hub.current == Some(p.g)
    && p.hub.links[p.g] == ViewerLink(ViewerInbox(p.plan, hs, vs), None)
    && QueueIs(p, HostInbox(p.plan, hs, vs))
    && p.toHost == HostControls(p.plan, hs, vs) && p.toViewer == ViewerControls(p.plan, hs, vs)
  }

  /** Steps left, at most. */
  function Left(p: Pair): int {
    (10 - HostStage(p.host)) + (9 - ViewerStage(p.viewer)) + p.leftover
    + 2 * p.patience + (if p.host.pc.Listening? then 1 else 0)
  }

  /** Both sides are connected, each to the other. */
  predicate Connected(p: Pair) {
    && p.host.pc == Finished(Session(TheViewer(p.plan))) && p.host.out == []
    && p.viewer.pc == Done(Ok(TheHost(p.plan)))
  }

  lemma ViewerStepKeeps(p: Pair, vi: ViewerInput)
    requires Joint(p) && Prompt(p, ViewerActs(vi))
    ensures Joint(PStep(p, ViewerActs(vi))) && Left(PStep(p, ViewerActs(vi))) < Left(p)
  {
    var p' := PStep(p, ViewerActs(vi));
    var (hs, vs) := (HostStage(p.host), ViewerStage(p.viewer));
    match vi {
      case VHeard(r, luck) => ViewerHearsOnTrack(p, vi);
      case VSent(sent) => if p.viewer.out[0].ToRelay? { ViewerRelaysOnTrack(p, vi); } else { ViewerGreetsOnTrack(p, vi); }
      case VOpenIn(how, known) => ViewerOpensOnTrack(p, vi);
      case VControlIn(n) => ViewerListensOnTrack(p, vi);
    }
  }

  /** An entry added to the host's queue comes after the leftovers. */
  lemma QueueGrows(p: Pair, p': Pair, inbox: seq<ServerToHost>, m: ServerToHost)
    requires QueueIs(p, inbox) && p'.leftover == p.leftover && p'.host == p.host
    requires p'.hub.hostQueue == p.hub.hostQueue + [m]
    ensures QueueIs(p', inbox + [m])
  {
  }

  lemma ShareArrives(h: Hub, g: nat, m: Payload)
    requires Valid(h) && h.current == Some(g) && h.links[g].closed.None?
    ensures
      var (h', r) := ViewerSend(h, g, m);
      && r.Ok? && Valid(h') && h'.current == h.current && h'.links == h.links
      && h'.hostQueue == h.hostQueue + [RelayToHost(m)]
  {
  }

  lemma ViewerSharesOnTrack(p: Pair, vi: ViewerInput)
    requires Joint(p) && Prompt(p, ViewerActs(vi)) && vi.VSent? && p.viewer.out == [ToRelay(StartMsg(p.plan))]
    requires p.viewer.pc.AwaitReply?
    ensures Joint(PStep(p, ViewerActs(vi))) && Left(PStep(p, ViewerActs(vi))) < Left(p)
  {
    var p' := PStep(p, ViewerActs(vi));
    var hs := HostStage(p.host);
    assert hs <= 1 && p.viewer.out[1..] == [] && ViewerStage(p'.viewer) == 2;
    assert p'.host == p.host && p'.toHost == p.toHost && p'.toViewer == p.toViewer;
    var m := RelayToHost(Pake(StartMsg(p.plan)));
    ShareArrives(p.hub, p.g, Pake(StartMsg(p.plan)));
    QueueGrows(p, p', HostInbox(p.plan, hs, 1), m);
    assert HostInbox(p.plan, hs, 2) == HostInbox(p.plan, hs, 1) + [m];
    assert ViewerInbox(p.plan, hs, 2) == ViewerInbox(p.plan, hs, 1);
  }

  lemma ViewerOffersOnTrack(p: Pair, vi: ViewerInput)
    requires Joint(p) && Prompt(p, ViewerActs(vi)) && vi.VSent? && p.viewer.out == [ToRelay(ConfirmMsg(p.plan))]
    requires p.viewer.pc.AwaitAnswer?
    ensures Joint(PStep(p, ViewerActs(vi))) && Left(PStep(p, ViewerActs(vi))) < Left(p)
  {
    var p' := PStep(p, ViewerActs(vi));
    var hs := HostStage(p.host);
    assert p.viewer.out[1..] == [] && ViewerStage(p'.viewer) == 4;
    var m := RelayToHost(Pake(ConfirmMsg(p.plan)));
    ShareArrives(p.hub, p.g, Pake(ConfirmMsg(p.plan)));
    QueueGrows(p, p', HostInbox(p.plan, hs, 3), m);
    assert HostInbox(p.plan, hs, 4) == HostInbox(p.plan, hs, 3) + [m];
    assert ViewerInbox(p.plan, hs, 4) == ViewerInbox(p.plan, hs, 3);
  }

  lemma ViewerRelaysOnTrack(p: Pair, vi: ViewerInput)
    requires Joint(p) && Prompt(p, ViewerActs(vi)) && vi.VSent? && p.viewer.out[0].ToRelay?
    ensures Joint(PStep(p, ViewerActs(vi))) && Left(PStep(p, ViewerActs(vi))) < Left(p)
  {
    if p.viewer.pc.AwaitReply? { ViewerSharesOnTrack(p, vi); } else { ViewerOffersOnTrack(p, vi); }
  }

  lemma ViewerGreetsOnTrack(p: Pair, vi: ViewerInput)
    requires Joint(p) && Prompt(p, ViewerActs(vi)) && vi.VSent? && p.viewer.out[0].ToHost?
    ensures Joint(PStep(p, ViewerActs(vi))) && Left(PStep(p, ViewerActs(vi))) < Left(p)
  {
    var p' := PStep(p, ViewerActs(vi));
    assert p.viewer.out[1..] == [];
    assert ViewerStage(p'.viewer) == 7;
  }

  lemma ViewerOpensOnTrack(p: Pair, vi: ViewerInput)
    requires Joint(p) && Prompt(p, ViewerActs(vi)) && vi.VOpenIn?
    ensures Joint(PStep(p, ViewerActs(vi))) && Left(PStep(p, ViewerActs(vi))) < Left(p)
  {
    assert ViewerStage(PStep(p, ViewerActs(vi)).viewer) == 6;
  }

  lemma HostHelloVerifies(k: Plan)
    ensures HostHello(k).HelloMsg?
    ensures VerifyHello(HostHello(k).hello, HostRole, TheTranscript(k), k.hostFp, k.viewerFp) == Some(TheHost(k))
  {
  }

  lemma ViewerHearsHello(p: Pair, vi: ViewerInput)
    requires Joint(p) && Prompt(p, ViewerActs(vi)) && vi.VControlIn? && p.viewer.pc.AwaitHostHello?
    ensures Joint(PStep(p, ViewerActs(vi))) && Left(PStep(p, ViewerActs(vi))) < Left(p)
  {
    var p' := PStep(p, ViewerActs(vi));
    HostHelloVerifies(p.plan);
    assert p.toViewer[0] == HostHello(p.plan);
    assert p'.viewer.pc == AwaitDecision(ViewerEnds(p.plan), TheHost(p.plan)) && p'.viewer.out == [];
    assert ViewerStage(p'.viewer) == 8;
  }

  lemma ViewerHearsDecision(p: Pair, vi: ViewerInput)
    requires Joint(p) && Prompt(p, ViewerActs(vi)) && vi.VControlIn? && p.viewer.pc.AwaitDecision?
    ensures Joint(PStep(p, ViewerActs(vi))) && Left(PStep(p, ViewerActs(vi))) < Left(p)
  {
    assert HostStage(p.host) == 10 && p.toViewer == [DecisionMsg(Accepted)];
    assert ViewerStage(PStep(p, ViewerActs(vi)).viewer) == 9;
  }

  lemma ViewerListensOnTrack(p: Pair, vi: ViewerInput)
    requires Joint(p) && Prompt(p, ViewerActs(vi)) && vi.VControlIn?
    ensures Joint(PStep(p, ViewerActs(vi))) && Left(PStep(p, ViewerActs(vi))) < Left(p)
  {
    if p.viewer.pc.AwaitHostHello? { ViewerHearsHello(p, vi); } else { ViewerHearsDecision(p, vi); }
  }

  lemma ViewerHearsJoined(p: Pair, vi: ViewerInput)
    requires Joint(p) && Prompt(p, ViewerActs(vi)) && vi.VHeard? && p.viewer.pc.AwaitJoined?
    ensures Joint(PStep(p, ViewerActs(vi))) && Left(PStep(p, ViewerActs(vi))) < Left(p)
  {
    var p' := PStep(p, ViewerActs(vi));
    assert HostStage(p.host) <= 1 && ViewerInbox(p.plan, HostStage(p.host), 0) == [Deliver(Joined)];
    assert ViewerStage(p'.viewer) == 1 && p'.host == p.host && p'.hub.hostQueue == p.hub.hostQueue;
  }

  lemma ViewerHearsReply(p: Pair, vi: ViewerInput)
    requires Joint(p) && Prompt(p, ViewerActs(vi)) && vi.VHeard? && p.viewer.pc.AwaitReply?
    ensures Joint(PStep(p, ViewerActs(vi))) && Left(PStep(p, ViewerActs(vi))) < Left(p)
  {
    assert ViewerInbox(p.plan, HostStage(p.host), 2)[0] == Deliver(RelayToViewer(Pake(ReplyMsg(p.plan))));
    assert ViewerStage(PStep(p, ViewerActs(vi)).viewer) == 3;
  }

  lemma ViewerHearsAnswer(p: Pair, vi: ViewerInput)
    requires Joint(p) && Prompt(p, ViewerActs(vi)) && vi.VHeard? && p.viewer.pc.AwaitAnswer?
    ensures Joint(PStep(p, ViewerActs(vi))) && Left(PStep(p, ViewerActs(vi))) < Left(p)
  {
    assert ViewerInbox(p.plan, HostStage(p.host), 4)[0] == Deliver(RelayToViewer(Pake(AnswerMsg(p.plan))));
    assert ViewerStage(PStep(p, ViewerActs(vi)).viewer) == 5;
  }

  lemma ViewerHearsOnTrack(p: Pair, vi: ViewerInput)
    requires Joint(p) && Prompt(p, ViewerActs(vi)) && vi.VHeard?
    ensures Joint(PStep(p, ViewerActs(vi))) && Left(PStep(p, ViewerActs(vi))) < Left(p)
  {
    match p.viewer.pc {
      case AwaitJoined => ViewerHearsJoined(p, vi);
      case AwaitReply(_) => ViewerHearsReply(p, vi);
      case AwaitAnswer(_, _) => ViewerHearsAnswer(p, vi);
    }
  }

  /** The host throws away what earlier viewers left. */
  lemma HostDiscards(p: Pair, i: Input)
    requires Joint(p) && Prompt(p, HostActs(i)) && i.Heard? && p.leftover > 0
    ensures Joint(PStep(p, HostActs(i))) && Left(PStep(p, HostActs(i))) < Left(p)
  {
    var p' := PStep(p, HostActs(i));
    assert p'.host == p.host.(now := i.at);
    NextInQueue(p, HostInbox(p.plan, 0, ViewerStage(p.viewer)));
  }

  /** Taking an entry off a queue that starts with leftovers. */
  lemma NextInQueue(p: Pair, inbox: seq<ServerToHost>)
    requires QueueIs(p, inbox) && p.leftover > 0
    ensures
      var queue := p.hub.hostQueue[1..];
      && p.hub.hostQueue[0] != ViewerJoined && p.leftover - 1 <= |queue| && queue[p.leftover - 1..] == inbox
      && forall i :: 0 <= i < p.leftover - 1 ==> queue[i] != ViewerJoined
  {
  }

  lemma HostHearsJoined(p: Pair, i: Input)
    requires Joint(p) && Prompt(p, HostActs(i)) && i.Heard? && p.host.pc.Idle? && p.leftover == 0
    ensures Joint(PStep(p, HostActs(i))) && Left(PStep(p, HostActs(i))) < Left(p)
  {
    assert HostInbox(p.plan, 0, ViewerStage(p.viewer))[0] == ViewerJoined;
    assert HostStage(PStep(p, HostActs(i)).host) == 1;
  }

  lemma HostHearsStart(p: Pair, i: Input)
    requires Joint(p) && Prompt(p, HostActs(i)) && i.Heard? && p.host.pc.AwaitStart?
    ensures Joint(PStep(p, HostActs(i))) && Left(PStep(p, HostActs(i))) < Left(p)
  {
    assert HostInbox(p.plan, 1, ViewerStage(p.viewer))[0] == RelayToHost(Pake(StartMsg(p.plan)));
    assert HostStage(PStep(p, HostActs(i)).host) == 2;
  }

  lemma HostHearsConfirm(p: Pair, i: Input)
    requires Joint(p) && Prompt(p, HostActs(i)) && i.Heard? && p.host.pc.AwaitConfirm?
    ensures Joint(PStep(p, HostActs(i))) && Left(PStep(p, HostActs(i))) < Left(p)
  {
    assert HostInbox(p.plan, 3, ViewerStage(p.viewer))[0] == RelayToHost(Pake(ConfirmMsg(p.plan)));
    assert HostStage(PStep(p, HostActs(i)).host) == 4;
  }

  lemma HostHearsOnTrack(p: Pair, i: Input)
    requires Joint(p) && Prompt(p, HostActs(i)) && i.Heard?
    ensures Joint(PStep(p, HostActs(i))) && Left(PStep(p, HostActs(i))) < Left(p)
  {
    match p.host.pc {
      case Idle => if p.leftover > 0 { HostDiscards(p, i); } else { HostHearsJoined(p, i); }
      case AwaitStart => HostHearsStart(p, i);
      case AwaitConfirm(_) => HostHearsConfirm(p, i);
    }
  }

  /** A relayed message of the host lands at the end of the viewer's queue. */
  lemma RelayLands(h: Hub, g: nat, m: PakeMsg)
    requires Valid(h) && h.current == Some(g) && g < |h.links|
    ensures
      var (h', l) := (HostSend(h, HostRelay(m)), h.links[g]);
      && Valid(h') && h'.current == h.current && h'.hostQueue == h.hostQueue && |h'.links| == |h.links|
      && h'.links[g] == ViewerLink(l.queue + [Deliver(RelayToViewer(Pake(m)))], l.closed)
  {
  }

  lemma HostRepliesOnTrack(p: Pair, i: Input)
    requires Joint(p) && Prompt(p, HostActs(i)) && i.Sent? && p.host.pc.AwaitConfirm?
    ensures Joint(PStep(p, HostActs(i))) && Left(PStep(p, HostActs(i))) < Left(p)
  {
    var p' := PStep(p, HostActs(i));
    var vs := ViewerStage(p.viewer);
    assert p.host.out == [ToServer(HostRelay(ReplyMsg(p.plan)))] && p.host.out[1..] == [];
    RelayLands(p.hub, p.g, ReplyMsg(p.plan));
    assert HostStage(p'.host) == 3;
    assert ViewerInbox(p.plan, 3, vs) == ViewerInbox(p.plan, 2, vs) + [Deliver(RelayToViewer(Pake(ReplyMsg(p.plan))))];
    assert HostInbox(p.plan, 3, vs) == HostInbox(p.plan, 2, vs);
  }

  lemma HostAnswersOnTrack(p: Pair, i: Input)
    requires Joint(p) && Prompt(p, HostActs(i)) && i.Sent? && p.host.pc.AwaitOpen?
    ensures Joint(PStep(p, HostActs(i))) && Left(PStep(p, HostActs(i))) < Left(p)
  {
    var p' := PStep(p, HostActs(i));
    var vs := ViewerStage(p.viewer);
    assert p.host.out == [ToServer(HostRelay(AnswerMsg(p.plan)))] && p.host.out[1..] == [];
    RelayLands(p.hub, p.g, AnswerMsg(p.plan));
    assert HostStage(p'.host) == 5;
    assert ViewerInbox(p.plan, 5, vs) == ViewerInbox(p.plan, 4, vs) + [Deliver(RelayToViewer(Pake(AnswerMsg(p.plan))))];
    assert HostInbox(p.plan, 5, vs) == HostInbox(p.plan, 4, vs);
  }

  lemma HostGreetsOnTrack(p: Pair, i: Input)
    requires Joint(p) && Prompt(p, HostActs(i)) && i.Sent? && p.host.pc.AwaitHello?
    ensures Joint(PStep(p, HostActs(i))) && Left(PStep(p, HostActs(i))) < Left(p)
  {
    var p' := PStep(p, HostActs(i));
    var vs := ViewerStage(p.viewer);
    assert p.host.out == [ToPeer(HostHello(p.plan))] && p.host.out[1..] == [];
    assert HostStage(p'.host) == 7 && p'.hub == p.hub;
    assert ViewerControls(p.plan, 7, vs) == ViewerControls(p.plan, 6, vs) + [HostHello(p.plan)];
  }

  lemma HostAcceptsOnTrack(p: Pair, i: Input)
    requires Joint(p) && Prompt(p, HostActs(i)) && i.Sent? && p.host.pc.Granting?
    ensures Joint(PStep(p, HostActs(i))) && Left(PStep(p, HostActs(i))) < Left(p)
  {
    var p' := PStep(p, HostActs(i));
    var vs := ViewerStage(p.viewer);
    assert p.host.out[1..] == [];
    assert HostStage(p'.host) == 10 && p'.hub == p.hub;
    assert ViewerControls(p.plan, 10, vs) == ViewerControls(p.plan, 9, vs) + [DecisionMsg(Accepted)];
  }

  lemma HostSendsOnTrack(p: Pair, i: Input)
    requires Joint(p) && Prompt(p, HostActs(i)) && i.Sent?
    ensures Joint(PStep(p, HostActs(i))) && Left(PStep(p, HostActs(i))) < Left(p)
  {
    match p.host.pc {
      case AwaitConfirm(_) => HostRepliesOnTrack(p, i);
      case AwaitOpen(_) => HostAnswersOnTrack(p, i);
      case AwaitHello(_) => HostGreetsOnTrack(p, i);
      case Granting(_, _) => HostAcceptsOnTrack(p, i);
    }
  }

  lemma HostOpensOnTrack(p: Pair, i: Input)
    requires Joint(p) && Prompt(p, HostActs(i)) && i.OpenIn?
    ensures Joint(PStep(p, HostActs(i))) && Left(PStep(p, HostActs(i))) < Left(p)
  {
  }

  lemma HostListensOnTrack(p: Pair, i: Input)
    requires Joint(p) && Prompt(p, HostActs(i)) && i.ControlIn?
    ensures Joint(PStep(p, HostActs(i))) && Left(PStep(p, HostActs(i))) < Left(p)
  {
    var p' := PStep(p, HostActs(i));
    if p.host.pc.AwaitHello? {
      assert p.toHost == [ViewerHello(p.plan)];
      assert p'.toHost == [];
      assert HostStage(p'.host) == 8;
    } else {
      assert p.toHost == [];
      assert HostStage(p'.host) == 8;
    }
  }

  lemma HostGrantsOnTrack(p: Pair, i: Input)
    requires Joint(p) && Prompt(p, HostActs(i)) && i.ApprovalIn? && i.answer == Some(true)
    ensures Joint(PStep(p, HostActs(i))) && Left(PStep(p, HostActs(i))) < Left(p)
  {
    var p' := PStep(p, HostActs(i));
    assert HostStage(p'.host) == 9;
    AskedQueues(p.plan, ViewerStage(p.viewer));
  }

  lemma HostWaitsOnTrack(p: Pair, i: Input)
    requires Joint(p) && Prompt(p, HostActs(i)) && i.ApprovalIn? && i.answer == None
    ensures Joint(PStep(p, HostActs(i))) && Left(PStep(p, HostActs(i))) < Left(p)
  {
    var p' := PStep(p, HostActs(i));
    assert HostStage(p'.host) == 8;
  }

  /** Asking and granting move no messages. */
  lemma AskedQueues(k: Plan, vs: nat)
    ensures HostInbox(k, 8, vs) == HostInbox(k, 9, vs) && ViewerInbox(k, 8, vs) == ViewerInbox(k, 9, vs)
    ensures HostControls(k, 8, vs) == HostControls(k, 9, vs) && ViewerControls(k, 8, vs) == ViewerControls(k, 9, vs)
  {
  }

  lemma HostStepKeeps(p: Pair, i: Input)
    requires Joint(p) && Prompt(p, HostActs(i))
    ensures Joint(PStep(p, HostActs(i))) && Left(PStep(p, HostActs(i))) < Left(p)
  {
    match i {
      case Heard(_, _, _) => HostHearsOnTrack(p, i);
      case Sent(_, _, _) => HostSendsOnTrack(p, i);
      case OpenIn(_, _, _) => HostOpensOnTrack(p, i);
      case ControlIn(_, _) => HostListensOnTrack(p, i);
      case ApprovalIn(a, _) => if a == Some(true) { HostGrantsOnTrack(p, i); } else { HostWaitsOnTrack(p, i); }
    }
  }

  lemma StepKeeps(p: Pair, a: Act)
    requires Joint(p) && Prompt(p, a)
    ensures Joint(PStep(p, a)) && Left(PStep(p, a)) < Left(p)
  {
    match a {
      case HostActs(i) => HostStepKeeps(p, i);
      case ViewerActs(vi) => ViewerStepKeeps(p, vi);
    }
  }

  /** Something can always happen until both are connected. */
  function NextAct(p: Pair): Act
    requires OnHub(p)
  {
    var now := p.host.now;
    var luck := Luck(p.plan.pb, p.host.code, true, p.plan.hostFp);
    var vluck := ViewerLuck(true, p.plan.pa, true, true, p.plan.viewerFp);
    if p.viewer.out != [] then ViewerActs(VSent(SendOk))
    else if p.host.out != [] then HostActs(Sent(true, now, luck))
    else if p.hub.links[p.g].queue != [] then ViewerActs(VHeard(ViewerRecv(p.hub, p.g).1, vluck))
    else if p.hub.hostQueue != [] then HostActs(Heard(HostRecv(p.hub).1, now, luck))
    else if p.viewer.pc.AwaitChannel? then ViewerActs(VOpenIn(Ready, true))
    else if p.toViewer != [] then ViewerActs(VControlIn(Msg(p.toViewer[0])))
    else if p.host.pc.AwaitOpen? then HostActs(OpenIn(Ready, true, now))
    else if p.host.pc.AwaitHello? && p.toHost != [] then HostActs(ControlIn(Msg(p.toHost[0]), now))
    else if p.host.pc.Listening? then HostActs(ControlIn(TimedOut, now))
    else HostActs(ApprovalIn(Some(true), now))
  }

  lemma SomeoneCanSend(p: Pair)
    requires Joint(p) && (p.viewer.out != [] || p.host.out != [])
    ensures Prompt(p, NextAct(p))
  {
  }

  lemma SomeoneCanHear(p: Pair)
    requires Joint(p) && p.viewer.out == [] && p.host.out == []
    requires p.hub.links[p.g].queue != [] || p.hub.hostQueue != []
    ensures Prompt(p, NextAct(p))
  {
    if p.hub.links[p.g].queue == [] { assert p.host.pc.Idle? || p.host.pc.AwaitStart? || p.host.pc.AwaitConfirm?; }
  }

  lemma TheyCanTalk(p: Pair)
    requires Joint(p) && !Connected(p) && p.viewer.out == [] && p.host.out == []
    requires p.hub.links[p.g].queue == [] && p.hub.hostQueue == []
    ensures Prompt(p, NextAct(p))
  {
    assert HostStage(p.host) < 10 || ViewerStage(p.viewer) < 9;
  }

  lemma NoDeadlock(p: Pair)
    requires Joint(p) && !Connected(p)
    ensures Prompt(p, NextAct(p))
  {
    if p.viewer.out != [] || p.host.out != [] {
      SomeoneCanSend(p);
    } else if p.hub.links[p.g].queue != [] || p.hub.hostQueue != [] {
      SomeoneCanHear(p);
    } else {
      TheyCanTalk(p);
    }
  }

  lemma StartsJoint(p: Pair, before: Hub)
    requires JustJoined(p, before) && WillAgree(p) && p.host.code == p.plan.viewer.code
    requires L.Check(p.host.limiter, p.host.now).Ok?
    ensures Joint(p) && Left(p) == 19 + |before.hostQueue| + 2 * p.patience
  {
    JoinIs(p, before);
  }

  lemma JoinIs(p: Pair, before: Hub)
    requires JustJoined(p, before)
    ensures OnHub(p) && p.hub.links[p.g] == ViewerLink([Deliver(Joined)], None) && p.hub.current == Some(p.g)
    ensures QueueIs(p, [ViewerJoined])
  {
    assert p.hub.hostQueue == before.hostQueue + [ViewerJoined];
    assert forall i :: 0 <= i < |before.hostQueue| ==> p.hub.hostQueue[i] == before.hostQueue[i];
  }

  /** Every act of the sequence is possible in its turn. */
  ghost predicate AllPrompt(p: Pair, acts: seq<Act>)
    decreases |acts|
  {
    OnHub(p)
    && (acts != [] ==> Prompt(p, acts[0]) && AllPrompt(PStep(p, acts[0]), acts[1..]))
  }

  function After(p: Pair, acts: seq<Act>): Pair
    requires AllPrompt(p, acts)
    decreases |acts|
  {
    if acts == [] then p else After(PStep(p, acts[0]), acts[1..])
  }

  lemma {:induction false} AfterKeeps(p: Pair, acts: seq<Act>)
    requires Joint(p) && AllPrompt(p, acts)
    ensures Joint(After(p, acts)) && Left(After(p, acts)) + |acts| <= Left(p)
    decreases |acts|
  {
    if acts != [] {
      StepKeeps(p, acts[0]);
      AfterKeeps(PStep(p, acts[0]), acts[1..]);
    }
  }

  /**
   Honest progress. With the same code and host ID, equal versions, an open limiter and a user who says yes
   after being asked `patience + 1` times at most, no interleaving of the two sides goes wrong: neither side
   ends in any other way, no run takes more than `19 + 2 * patience` steps and one for each entry left in the
   queue by earlier viewers, and wherever a run stands still both sides are connected, each with the other's
   identity.
   */
  lemma EveryInterleavingConnects(p: Pair, before: Hub, acts: seq<Act>)
    requires JustJoined(p, before) && WillAgree(p) && p.host.code == p.plan.viewer.code
    requires L.Check(p.host.limiter, p.host.now).Ok?
    requires AllPrompt(p, acts)
    ensures
      var p' := After(p, acts);
      && |acts| <= 19 + |before.hostQueue| + 2 * p.patience
      && OnHub(p')
      && (Connected(p') || Prompt(p', NextAct(p')))
      && (p'.host.pc.Finished? ==> p'.host.pc.outcome == Session(TheViewer(p'.plan)))
      && (p'.viewer.pc.Done? ==> p'.viewer.pc.result == Ok(TheHost(p'.plan)))
  {
    StartsJoint(p, before);
    AfterKeeps(p, acts);
    JointIsFine(After(p, acts));
  }

  lemma JointIsFine(p: Pair)
    requires Joint(p)
    ensures Left(p) >= 0 && (Connected(p) || Prompt(p, NextAct(p)))
    ensures p.host.pc.Finished? ==> p.host.pc.outcome == Session(TheViewer(p.plan))
    ensures p.viewer.pc.Done? ==> p.viewer.pc.result == Ok(TheHost(p.plan))
  {
    if !Connected(p) { NoDeadlock(p); }
  }

  // Every interleaving announces the wait.

  /** What the host announces when its last attempt found the limiter closed. */
  function Announced(h: Host): nat {
    if h.log == [] || !h.log[|h.log| - 1].Began? then 0
    else
      match L.Check(h.limiter, h.log[|h.log| - 1].at)
      case Err(left) => L.WaitMillis(left)
      case Ok(_) => 0
  }

  /** A prompt step while the limiter is closed, until `until`. */
  predicate Early(p: Pair, a: Act, until: nat)
    requires OnHub(p)
  {
    Prompt(p, a) && (a.HostActs? && a.i.Heard? ==> a.i.at < until)
  }

  /** 0: not begun; 1 to 3: refusing, with two, one, and no messages left to send. */
  function RefusalStage(h: Host): nat {
    if h.pc.Idle? then 0 else if |h.out| == 2 then 1 else if |h.out| == 1 then 2 else 3
  }

  /** What the viewer's queue has held so far. */
  function RefusalMail(stage: nat, ms: nat): seq<Envelope> {
    [Deliver(Joined)]
    + If(stage >= 2, Deliver(RelayToViewer(Pake(RetryAfter(ms)))))
    + If(stage >= 3, CloseWith(KICKED))
  }

  predicate HostRefuses(h: Host, until: nat) {
    && h.limiter.waitUntil == Some(until)
    && if h.pc.Idle? then h.out == []
       else
         && h.log != [] && h.log[|h.log| - 1].Began? && h.log[|h.log| - 1].at < until
         && h.pc == Finished(Failed(WaitRequired))
         && (h.out == [ToServer(HostRelay(RetryAfter(Announced(h)))), ToServer(Kick)]
             || h.out == [ToServer(Kick)] || h.out == [])
  }

  predicate ViewerWaits(v: Viewer, stage: nat, ms: nat, queue: seq<Envelope>) {
    match v.pc
    case AwaitJoined => v.out == [] && queue == RefusalMail(stage, ms)
    case AwaitReply(_) =>
      (v.out == [] || (|v.out| == 1 && v.out[0].ToRelay?)) && queue == RefusalMail(stage, ms)[1..]
    case Done(r) => stage >= 2 && v.out == [] && r == Err(RetryLater(ms))
    case _ => false
  }

  predicate Refused0(p: Pair, until: nat) {
    var hs := RefusalStage(p.host);
    && HostRefuses(p.host, until)
    && OnHub(p) && p.hub.links[p.g].closed.None?
    && p.hub.current == (if hs < 3 then Some(p.g) else None)
    && (hs == 0 ==>
          && p.host.now < until && p.leftover < |p.hub.hostQueue| && p.hub.hostQueue[p.leftover] == ViewerJoined
          && forall i :: 0 <= i < p.leftover ==> p.hub.hostQueue[i] != ViewerJoined)
    && ViewerWaits(p.viewer, hs, Announced(p.host), p.hub.links[p.g].queue)
  }

  function RefusalLeft(p: Pair): int {
    (if p.host.pc.Idle? then p.leftover else 0) + (3 - RefusalStage(p.host))
    + (if p.viewer.pc.Done? then 0 else 3 - ViewerStage(p.viewer))
  }

  lemma RefusalBegins(p: Pair, i: Input, until: nat)
    requires Refused0(p, until) && Early(p, HostActs(i), until) && i.Heard?
    ensures Refused0(PStep(p, HostActs(i)), until) && RefusalLeft(PStep(p, HostActs(i))) < RefusalLeft(p)
  {
    var p' := PStep(p, HostActs(i));
    if p.leftover > 0 {
      assert p'.host == p.host.(now := i.at) && p'.hub.hostQueue == p.hub.hostQueue[1..];
      return;
    }
    assert p'.host.log[|p'.host.log| - 1] == Began(i.at);
    assert RefusalStage(p'.host) == 1;
    assert RefusalMail(1, Announced(p'.host)) == RefusalMail(0, Announced(p.host));
  }

  lemma KickLands(h: Hub, g: nat)
    requires Valid(h) && h.current == Some(g) && g < |h.links|
    ensures
      var (h', l) := (HostSend(h, Kick), h.links[g]);
      && Valid(h') && h'.current == None && h'.hostQueue == h.hostQueue && |h'.links| == |h.links|
      && h'.links[g] == ViewerLink(l.queue + [CloseWith(KICKED)], l.closed)
  {
  }

  lemma MailGrows(stage: nat, ms: nat)
    requires stage == 1 || stage == 2
    ensures
      var e := if stage == 1 then Deliver(RelayToViewer(Pake(RetryAfter(ms)))) else CloseWith(KICKED);
      && RefusalMail(stage + 1, ms) == RefusalMail(stage, ms) + [e]
      && RefusalMail(stage + 1, ms)[1..] == RefusalMail(stage, ms)[1..] + [e]
  {
  }

  lemma DelayIsSent(p: Pair, i: Input, until: nat)
    requires Refused0(p, until) && Early(p, HostActs(i), until) && i.Sent? && RefusalStage(p.host) == 1
    ensures Refused0(PStep(p, HostActs(i)), until) && RefusalLeft(PStep(p, HostActs(i))) < RefusalLeft(p)
  {
    var p' := PStep(p, HostActs(i));
    var ms := Announced(p.host);
    RelayLands(p.hub, p.g, RetryAfter(ms));
    assert p'.host.out == [ToServer(Kick)] && Announced(p'.host) == ms && RefusalStage(p'.host) == 2;
    MailGrows(1, ms);
  }

  lemma KickIsSent(p: Pair, i: Input, until: nat)
    requires Refused0(p, until) && Early(p, HostActs(i), until) && i.Sent? && RefusalStage(p.host) == 2
    ensures Refused0(PStep(p, HostActs(i)), until) && RefusalLeft(PStep(p, HostActs(i))) < RefusalLeft(p)
  {
    var p' := PStep(p, HostActs(i));
    var ms := Announced(p.host);
    KickLands(p.hub, p.g);
    assert p'.host.out == [] && Announced(p'.host) == ms && RefusalStage(p'.host) == 3;
    MailGrows(2, ms);
  }

  lemma RefusalIsSent(p: Pair, i: Input, until: nat)
    requires Refused0(p, until) && Early(p, HostActs(i), until) && i.Sent?
    ensures Refused0(PStep(p, HostActs(i)), until) && RefusalLeft(PStep(p, HostActs(i))) < RefusalLeft(p)
  {
    if RefusalStage(p.host) == 1 { DelayIsSent(p, i, until); } else { KickIsSent(p, i, until); }
  }

  lemma RefusedViewerKeeps(p: Pair, vi: ViewerInput, until: nat)
    requires Refused0(p, until) && Early(p, ViewerActs(vi), until)
    ensures Refused0(PStep(p, ViewerActs(vi)), until) && RefusalLeft(PStep(p, ViewerActs(vi))) < RefusalLeft(p)
  {
    var (hs, queue) := (RefusalStage(p.host), p.hub.links[p.g].queue);
    if p.viewer.pc.AwaitJoined? {
      assert queue[0] == Deliver(Joined);
    } else if vi.VHeard? {
      assert hs >= 2;
      assert queue[0] == Deliver(RelayToViewer(Pake(RetryAfter(Announced(p.host)))));
    }
  }

  lemma RefusalStepKeeps(p: Pair, a: Act, until: nat)
    requires Refused0(p, until) && Early(p, a, until)
    ensures Refused0(PStep(p, a), until) && RefusalLeft(PStep(p, a)) < RefusalLeft(p)
  {
    match a {
      case HostActs(i) => if i.Heard? { RefusalBegins(p, i, until); } else { RefusalIsSent(p, i, until); }
      case ViewerActs(vi) => RefusedViewerKeeps(p, vi, until);
    }
  }

  ghost predicate AllEarly(p: Pair, acts: seq<Act>, until: nat)
    decreases |acts|
  {
    OnHub(p)
    && (acts != [] ==> Early(p, acts[0], until) && AllEarly(PStep(p, acts[0]), acts[1..], until))
  }

  lemma {:induction false} RefusalAfterKeeps(p: Pair, acts: seq<Act>, until: nat)
    requires Refused0(p, until) && AllEarly(p, acts, until)
    ensures AllPrompt(p, acts)
    ensures Refused0(After(p, acts), until) && RefusalLeft(After(p, acts)) + |acts| <= RefusalLeft(p)
    decreases |acts|
  {
    if acts != [] {
      RefusalStepKeeps(p, acts[0], until);
      RefusalAfterKeeps(PStep(p, acts[0]), acts[1..], until);
    }
  }

  /** What can happen next while the viewer is not yet done. */
  function NextRefusal(p: Pair): Act
    requires OnHub(p)
  {
    var now := p.host.now;
    var luck := Luck(p.plan.pb, p.host.code, true, p.plan.hostFp);
    if p.viewer.out != [] && p.viewer.out[0].ToRelay? then
      ViewerActs(VSent(if ViewerSend(p.hub, p.g, Pake(p.viewer.out[0].m)).1.Ok? then SendOk else SendClosed))
    else if p.hub.links[p.g].queue != [] then
      ViewerActs(VHeard(ViewerRecv(p.hub, p.g).1, ViewerLuck(true, p.plan.pa, true, true, p.plan.viewerFp)))
    else if p.host.out != [] then HostActs(Sent(true, now, luck))
    else HostActs(Heard(HostRecv(p.hub).1, now, luck))
  }

  /**
   While the host's limiter is closed, every interleaving of its refusal and its kick with the viewer's
   joining, starting and receiving ends, after six steps and one for each leftover entry at most, with the
   viewer being told to retry, never with its host gone; and the announced delay is the least one, in whole
   milliseconds from the moment the host looked, after which the limiter is open.
   */
  lemma EveryInterleavingAnnouncesTheWait(p: Pair, before: Hub, acts: seq<Act>, until: nat)
    requires JustJoined(p, before) && p.host.limiter.waitUntil == Some(until) && p.host.now < until
    requires AllEarly(p, acts, until)
    ensures AllPrompt(p, acts) && |acts| <= 6 + |before.hostQueue|
    ensures
      var p' := After(p, acts);
      && OnHub(p')
      && (p'.viewer.pc.Done? || Early(p', NextRefusal(p'), until))
      && (p'.viewer.pc.Done? ==>
            && p'.host.log != [] && p'.host.log[|p'.host.log| - 1].Began?
            && var ms := Announced(p'.host);
            && p'.viewer.pc.result == Err(RetryLater(ms)) && ms > 0
            && forall m: nat ::
                 m >= ms <==> p'.host.log[|p'.host.log| - 1].at + m * L.NANOS_PER_MILLI >= until)
  {
    RefusalStarts(p, before, until);
    RefusalAfterKeeps(p, acts, until);
    RefusalIsClear(After(p, acts), until);
  }

  lemma RefusalStarts(p: Pair, before: Hub, until: nat)
    requires JustJoined(p, before) && p.host.limiter.waitUntil == Some(until) && p.host.now < until
    ensures Refused0(p, until) && RefusalLeft(p) == 6 + |before.hostQueue|
  {
    JoinIs(p, before);
    assert RefusalMail(0, Announced(p.host)) == [Deliver(Joined)];
  }

  lemma RefusalIsClear(p: Pair, until: nat)
    requires Refused0(p, until)
    ensures RefusalLeft(p) >= 0 && (p.viewer.pc.Done? || Early(p, NextRefusal(p), until))
    ensures
      p.viewer.pc.Done? ==>
        && p.host.log != [] && p.host.log[|p.host.log| - 1].Began?
        && var ms := Announced(p.host);
        && p.viewer.pc.result == Err(RetryLater(ms)) && ms > 0
        && forall m: nat :: m >= ms <==> p.host.log[|p.host.log| - 1].at + m * L.NANOS_PER_MILLI >= until
  {
    if p.viewer.pc.Done? {
      var at := p.host.log[|p.host.log| - 1].at;
      forall m: nat ensures m >= Announced(p.host) <==> at + m * L.NANOS_PER_MILLI >= until {
        L.WaitMillisIsLeast(p.host.limiter, at, m);
      }
      L.WaitMillisIsLeast(p.host.limiter, at, 0);
    }
  }
}
