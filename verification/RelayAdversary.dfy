/**
 The first connection through a relay that belongs to an adversary.

 The adversary decides everything on the signaling path: what either side hears, in which order, how
 often, and from whom. It may use every message of an honest party from the moment its author decided to
 send it, and it may make up any message, except that it can make a MAC or a sealed box of its own only
 for a transcript whose code it guessed and in which one of the shares is its own (SPAKE2), and that on a
 data channel it speaks only for its own fingerprints (DTLS). Any number of viewers take part, and the host
 serves any number of attempts, with its code rotating. `guesses` are the codes the adversary tries.
 */
module RelayAdversary {
  import opened Wrappers
  import opened Protocol
  import opened HostMachine
  import opened ViewerMachine
  import HostRuns

  datatype World = World(host: Host, viewers: seq<Viewer>)

  /** The `n`-th entry of the host's log gives its secrets their serial numbers. */
  function HostShare(n: nat): Share { Share.Share(HostParty, n) }

  function HostFp(n: nat): Fingerprint { Fingerprint.Fingerprint(HostParty, n) }

  function ViewerShare(k: nat): Share { Share.Share(ViewerParty(k), 0) }

  function ViewerFp(k: nat): Fingerprint { Fingerprint.Fingerprint(ViewerParty(k), 0) }

  predicate KnowsKey(guesses: set<Code>, t: Transcript) {
    t.code in guesses
    && ((t.pa.Share? && t.pa.owner == RelayParty) || (t.pb.Share? && t.pb.owner == RelayParty))
  }

  /** The host computed a reply, and with it its MAC, for `t`. */
  predicate HostReplied(w: World, t: Transcript) {
    && t.pb.Share? && t.pb.owner == HostParty && t.pb.serial < |w.host.log|
    && w.host.log[t.pb.serial].Replied? && w.host.log[t.pb.serial].t == t
  }

  /** The host sealed an answer with its fingerprint `fp` under the keys of `t`, for these ends. */
  predicate HostAnswered(w: World, e: Ends) {
    && e.local.owner == HostParty && e.local.serial + 1 < |w.host.log|
    && w.host.log[e.local.serial + 1] == Answered(e)
  }

  /** Viewer `k` verified the host's MAC for `t`, and so prepared its own MAC and its sealed offer. */
  predicate ViewerConfirmed(w: World, k: nat, t: Transcript) {
    k < |w.viewers| && HostMacOk(t, ViewerFp(k)) in w.viewers[k].log
  }

  /** The viewer whose share `t` carries. */
  predicate ShareOf(t: Transcript, k: nat) { t.pa == ViewerShare(k) }

  ghost predicate SayableMac(w: World, guesses: set<Code>, m: Mac) {
    match m
    case BadMac => true
    case MacA(t) => KnowsKey(guesses, t) || exists k: nat :: ViewerConfirmed(w, k, t)
    case MacB(t) => KnowsKey(guesses, t) || HostReplied(w, t)
  }

  ghost predicate SayableSeal(w: World, guesses: set<Code>, s: Sealed) {
    match s
    case BadSeal => true
    case Sealed(t, dir, counter, body) =>
      || KnowsKey(guesses, t)
      || (dir == ViewerToHost && counter == 0 && exists k: nat :: ViewerConfirmed(w, k, t) && body == Sdp(ViewerFp(k)))
      || (dir == HostToViewer && counter == 0 && exists e :: HostAnswered(w, e) && e.t == t && body == Sdp(e.local))
  }

  /** What the adversary can put on the signaling path. */
  ghost predicate Sayable(w: World, guesses: set<Code>, m: PakeMsg) {
    match m
    case Reply(_, macB) => SayableMac(w, guesses, macB)
    case Confirm(macA, sealed) => SayableMac(w, guesses, macA) && SayableSeal(w, guesses, sealed)
    case Answer(sealed) => SayableSeal(w, guesses, sealed)
    case _ => true
  }

  /** The host told the viewer at these ends that it is accepted. */
  ghost predicate HostAccepted(w: World, e: Ends) {
    exists i :: 0 <= i < |w.host.log| && w.host.log[i].AcceptSent? && w.host.log[i].e == e
  }

  /** What can arrive at `to` on a data channel from `from`. */
  ghost predicate Hearable(w: World, from: Fingerprint, to: Fingerprint, c: Control) {
    match from.owner
    case RelayParty => true
    case HostParty =>
      exists e ::
        && HostAnswered(w, e) && e.local == from && e.remote == to
        && (c.HelloMsg? ==> c == HelloMsg(MakeHello(w.host.cfg.device, HostRole, e.t, e.local, e.remote)))
        && (c == DecisionMsg(Accepted) ==> HostAccepted(w, e))
    case ViewerParty(k) =>
      && k < |w.viewers|
      && exists e ::
           && Connected(e) in w.viewers[k].log && e.local == from && e.remote == to
           && c == HelloMsg(MakeHello(AsViewer(w.viewers[k].cfg.device), ViewerRole, e.t, e.local, e.remote))
  }

  datatype Act = HostAct(i: Input) | ViewerAct(k: nat, vi: ViewerInput) | NewViewer(cfg: ViewerConfig)

  function EndsAt(pc: Pc): Option<Ends> {
    match pc
    case AwaitHello(e) => Some(e)
    case Listening(e, _, _) => Some(e)
    case _ => None
  }

  function ViewerEndsAt(pc: ViewerPc): Option<Ends> {
    match pc
    case AwaitHostHello(e) => Some(e)
    case AwaitDecision(e, _) => Some(e)
    case _ => None
  }

  ghost predicate Possible(w: World, guesses: set<Code>, a: Act) {
    match a
    case HostAct(i) =>
      (match i
       case Heard(r, _, luck) =>
         && (r.Got? && r.msg.RelayToHost? && r.msg.payload.Pake? ==> Sayable(w, guesses, r.msg.payload.msg))
         && luck.pb == HostShare(|w.host.log|) && luck.local == HostFp(|w.host.log|)
       case ControlIn(n, _) =>
         n.Msg? && EndsAt(w.host.pc).Some? ==>
           Hearable(w, EndsAt(w.host.pc).value.remote, EndsAt(w.host.pc).value.local, n.control)
       case _ => true)
    case ViewerAct(k, vi) =>
      && k < |w.viewers|
      && (match vi
          case VHeard(r, luck) =>
            && (r.Got? && r.msg.RelayToViewer? && r.msg.payload.Pake? ==> Sayable(w, guesses, r.msg.payload.msg))
            && luck.pa == ViewerShare(k) && luck.local == ViewerFp(k)
          case VControlIn(n) =>
            n.Msg? && ViewerEndsAt(w.viewers[k].pc).Some? ==>
              Hearable(w, ViewerEndsAt(w.viewers[k].pc).value.remote, ViewerEndsAt(w.viewers[k].pc).value.local, n.control)
          case _ => true)
    case NewViewer(_) => true
  }

  ghost function WStep(w: World, guesses: set<Code>, a: Act): World {
    if !Possible(w, guesses, a) then w
    else
      match a
      case HostAct(i) => w.(host := Step(w.host, i))
      case ViewerAct(k, vi) => w.(viewers := w.viewers[k := VStep(w.viewers[k], vi)])
      case NewViewer(cfg) => w.(viewers := w.viewers + [VInitial(cfg)])
  }

  ghost function WRun(w: World, guesses: set<Code>, acts: seq<Act>): World {
    if acts == [] then w else WStep(WRun(w, guesses, acts[..|acts| - 1]), guesses, acts[|acts| - 1])
  }

  // What holds in every reachable world.

  /** Evidence for an event of the host; nothing is claimed about codes the adversary tries. */
  ghost predicate HostEventOk(w: World, guesses: set<Code>, i: nat, ev: HostEvent) {
    match ev
    case Replied(t, _, _) => t.pb == HostShare(i) && t.hostId == w.host.cfg.hostId
    case MacOk(t) => t.code in guesses || exists k: nat :: ShareOf(t, k) && ViewerConfirmed(w, k, t)
    case Answered(e) =>
      && i > 0 && e.local == HostFp(i - 1)
      && (e.t.code in guesses || exists k: nat :: ShareOf(e.t, k) && ViewerConfirmed(w, k, e.t) && e.remote == ViewerFp(k))
    case HelloOk(e, viewer, _) => e.t.code in guesses || MetViewer(w, e, viewer)
    case _ => true
  }

  /** The viewer at the other end of `e` is an honest one, it sees the same ends, and `viewer` is its identity. */
  ghost predicate MetViewer(w: World, e: Ends, viewer: PeerIdentity) {
    exists k: nat ::
      && ShareOf(e.t, k) && ViewerConfirmed(w, k, e.t) && e.remote == ViewerFp(k)
      && Connected(Ends(e.t, e.remote, e.local)) in w.viewers[k].log
      && viewer == IdentityOf(w.viewers[k].cfg.device)
  }

  ghost predicate ViewerEventOk(w: World, guesses: set<Code>, k: nat, ev: ViewerEvent)
    requires k < |w.viewers|
  {
    var v := w.viewers[k];
    match ev
    case Started(pa) => pa == ViewerShare(k)
    case HostMacOk(t, local) =>
      && t.code == v.cfg.code && t.hostId == v.cfg.hostId && ShareOf(t, k) && local == ViewerFp(k)
      && (t.code in guesses || HostReplied(w, t))
    case Connected(e) =>
      && e.local == ViewerFp(k) && HostMacOk(e.t, e.local) in v.log
      && (e.t.code in guesses || exists eh :: HostAnswered(w, eh) && eh.t == e.t && eh.local == e.remote)
    case HostHelloOk(e, host) =>
      Connected(e) in v.log && (e.t.code in guesses || host == IdentityOf(w.host.cfg.device))
    case AcceptHeard(e, host) =>
      HostHelloOk(e, host) in v.log && (e.t.code in guesses || HostAccepted(w, Ends(e.t, e.remote, e.local)))
  }

  predicate ViewerAt(v: Viewer, k: nat) {
    match v.pc
    case AwaitReply(pa) => pa == ViewerShare(k)
    case AwaitAnswer(t, local) => HostMacOk(t, local) in v.log && local == ViewerFp(k)
    case AwaitChannel(e) => Connected(e) in v.log
    case AwaitHostHello(e) => Connected(e) in v.log
    case AwaitDecision(e, host) => HostHelloOk(e, host) in v.log
    case Done(Ok(host)) => v.log != [] && v.log[|v.log| - 1].AcceptHeard? && v.log[|v.log| - 1].host == host
    case _ => true
  }

  ghost predicate HostSideOk(w: World, guesses: set<Code>) {
    && HostRuns.InOrder(w.host.cfg, w.host.log) && HostRuns.AtEvent(w.host)
    && forall i :: 0 <= i < |w.host.log| ==> HostEventOk(w, guesses, i, w.host.log[i])
  }

  ghost predicate ViewerSideOk(w: World, guesses: set<Code>, k: nat)
    requires k < |w.viewers|
  {
    && ViewerAt(w.viewers[k], k)
    && forall ev :: ev in w.viewers[k].log ==> ViewerEventOk(w, guesses, k, ev)
  }

  ghost predicate WInv(w: World, guesses: set<Code>) {
    HostSideOk(w, guesses) && forall k :: 0 <= k < |w.viewers| ==> ViewerSideOk(w, guesses, k)
  }

  /** `w'` has all that `w` has. */
  predicate Extends(w: World, w': World) {
    && w.host.cfg == w'.host.cfg && w.host.log <= w'.host.log && |w.viewers| <= |w'.viewers|
    && forall k :: 0 <= k < |w.viewers| ==> w.viewers[k].cfg == w'.viewers[k].cfg && w.viewers[k].log <= w'.viewers[k].log
  }

  lemma EvidenceStays(w: World, w': World, guesses: set<Code>)
    requires Extends(w, w')
    ensures forall t :: HostReplied(w, t) ==> HostReplied(w', t)
    ensures forall e :: HostAnswered(w, e) ==> HostAnswered(w', e)
    ensures forall k, t :: ViewerConfirmed(w, k, t) ==> ViewerConfirmed(w', k, t)
    ensures forall e :: HostAccepted(w, e) ==> HostAccepted(w', e)
  {
    forall e | HostAccepted(w, e) ensures HostAccepted(w', e) {
      var i :| 0 <= i < |w.host.log| && w.host.log[i].AcceptSent? && w.host.log[i].e == e;
      assert w'.host.log[i] == w.host.log[i];
    }
  }

  lemma HostEventStays(w: World, w': World, guesses: set<Code>, i: nat, ev: HostEvent)
    requires Extends(w, w') && HostEventOk(w, guesses, i, ev)
    ensures HostEventOk(w', guesses, i, ev)
  {
    EvidenceStays(w, w', guesses);
    if ev.HelloOk? && ev.e.t.code !in guesses {
      var e := ev.e;
      var k: nat :| && ShareOf(e.t, k) && ViewerConfirmed(w, k, e.t) && e.remote == ViewerFp(k)
               && Connected(Ends(e.t, e.remote, e.local)) in w.viewers[k].log
               && ev.viewer == IdentityOf(w.viewers[k].cfg.device);
      assert ViewerConfirmed(w', k, e.t);
    }
  }

  lemma ViewerEventStays(w: World, w': World, guesses: set<Code>, k: nat, ev: ViewerEvent)
    requires Extends(w, w') && k < |w.viewers| && ViewerEventOk(w, guesses, k, ev)
    ensures ViewerEventOk(w', guesses, k, ev)
  {
    EvidenceStays(w, w', guesses);
  }

  lemma ViewerStays(w: World, w': World, guesses: set<Code>, k: nat)
    requires Extends(w, w') && k < |w.viewers| && ViewerSideOk(w, guesses, k) && w'.viewers[k] == w.viewers[k]
    ensures ViewerSideOk(w', guesses, k)
  {
    forall ev | ev in w'.viewers[k].log ensures ViewerEventOk(w', guesses, k, ev) {
      ViewerEventStays(w, w', guesses, k, ev);
    }
  }

  lemma HostStays(w: World, w': World, guesses: set<Code>)
    requires Extends(w, w') && HostSideOk(w, guesses) && w'.host == w.host
    ensures HostSideOk(w', guesses)
  {
    forall i | 0 <= i < |w'.host.log| ensures HostEventOk(w', guesses, i, w'.host.log[i]) {
      HostEventStays(w, w', guesses, i, w.host.log[i]);
    }
  }

  // The host moves.

  /** What a step of the host adds to its log, and from what. */
  predicate NewEvents(h: Host, i: Input, added: seq<HostEvent>) {
    || added == []
    || (|added| == 1 && (added[0].Began? || added[0].Granted? || added[0].AcceptSent?))
    || (|added| == 1 && added[0].Replied? && i.Heard?
        && added[0].t.pb == i.luck.pb && added[0].t.hostId == h.cfg.hostId)
    || (1 <= |added| <= 2 && h.pc.AwaitConfirm? && i.Heard? && added[0] == MacOk(h.pc.t)
        && i.r.Got? && i.r.msg.RelayToHost? && i.r.msg.payload.Pake? && i.r.msg.payload.msg.Confirm?
        && i.r.msg.payload.msg.macA == MacA(h.pc.t)
        && (|added| == 2 ==>
              && added[1].Answered? && added[1].e.t == h.pc.t && added[1].e.local == i.luck.local
              && i.r.msg.payload.msg.sealedOffer == Sealed(h.pc.t, ViewerToHost, 0, Sdp(added[1].e.remote))))
    || (|added| == 1 && h.pc.AwaitHello? && i.ControlIn? && added[0].HelloOk? && added[0].e == h.pc.e
        && i.n == Msg(HelloMsg(added[0].hello))
        && VerifyHello(added[0].hello, ViewerRole, h.pc.e.t, h.pc.e.remote, h.pc.e.local) == Some(added[0].viewer))
  }

  lemma HeardAdds(h: Host, r: LinkRecv<ServerToHost>, at: nat, luck: Luck)
    ensures
      var h' := Hear(h, r, at, luck);
      && h.log <= h'.log && NewEvents(h, Heard(r, at, luck), h'.log[|h.log|..])
  {
    var h' := Hear(h, r, at, luck);
    if h.pc.AwaitConfirm? && |h'.log| > |h.log| {
      assert h'.log[|h.log|] == MacOk(h.pc.t);
      assert |h'.log| == |h.log| + 1 ==> h'.log[|h.log|..] == [MacOk(h.pc.t)];
    }
  }

  lemma StepAdds(h: Host, i: Input)
    ensures h.log <= Step(h, i).log && NewEvents(h, i, Step(h, i).log[|h.log|..])
  {
    if Expects(h, i) && i.Heard? {
      HeardAdds(h.(now := i.at), i.r, i.at, i.luck);
    } else {
      OtherStepAdds(h, i);
    }
  }

  lemma OtherStepAdds(h: Host, i: Input)
    requires !i.Heard? || !Expects(h, i)
    ensures h.log <= Step(h, i).log && NewEvents(h, i, Step(h, i).log[|h.log|..])
  {
    assert h.log[|h.log|..] == [];
  }

  /** A verified hello names the party that made it, and the session it was made for. */
  lemma HelloNamesItsMaker(d: Device, made: Role, binding: Transcript, ownFp: Fingerprint, peerFp: Fingerprint,
                           sender: Role, binding': Transcript, senderFp: Fingerprint, receiverFp: Fingerprint)
    ensures
      VerifyHello(MakeHello(d, made, binding, ownFp, peerFp), sender, binding', senderFp, receiverFp) ==
        if made == sender && binding == binding' && ownFp == senderFp && peerFp == receiverFp
        then Some(IdentityOf(d)) else None
  {
  }

  lemma HostMacKeeps(w: World, guesses: set<Code>, w': World, t: Transcript, i: nat)
    requires WInv(w, guesses) && Extends(w, w') && SayableMac(w, guesses, MacA(t))
    ensures HostEventOk(w', guesses, i, MacOk(t))
  {
    EvidenceStays(w, w', guesses);
    if t.code !in guesses {
      var k: nat :| ViewerConfirmed(w, k, t);
      assert ViewerSideOk(w, guesses, k);
      assert ViewerEventOk(w, guesses, k, HostMacOk(t, ViewerFp(k)));
      assert ShareOf(t, k) && ViewerConfirmed(w', k, t);
    }
  }

  lemma HostAnswerKeeps(w: World, guesses: set<Code>, w': World, e: Ends, i: nat)
    requires WInv(w, guesses) && Extends(w, w')
    requires SayableSeal(w, guesses, Sealed(e.t, ViewerToHost, 0, Sdp(e.remote)))
    requires i > 0 && e.local == HostFp(i - 1)
    ensures HostEventOk(w', guesses, i, Answered(e))
  {
    EvidenceStays(w, w', guesses);
    if e.t.code !in guesses {
      var k: nat :| ViewerConfirmed(w, k, e.t) && Sdp(e.remote) == Sdp(ViewerFp(k));
      assert ViewerSideOk(w, guesses, k);
      assert ViewerEventOk(w, guesses, k, HostMacOk(e.t, ViewerFp(k)));
      assert ShareOf(e.t, k) && ViewerConfirmed(w', k, e.t) && e.remote == ViewerFp(k);
    }
  }

  lemma HostHelloKeeps(w: World, guesses: set<Code>, w': World, e: Ends, viewer: PeerIdentity, hello: Hello, i: nat)
    requires WInv(w, guesses) && Extends(w, w') && w.host.pc == AwaitHello(e)
    requires Hearable(w, e.remote, e.local, HelloMsg(hello))
    requires VerifyHello(hello, ViewerRole, e.t, e.remote, e.local) == Some(viewer)
    ensures HostEventOk(w', guesses, i, HelloOk(e, viewer, hello))
  {
    if e.t.code !in guesses {
      assert HostRuns.Last(w.host.log) == Answered(e);
      assert HostEventOk(w, guesses, |w.host.log| - 1, Answered(e));
      var k: nat :| ShareOf(e.t, k) && ViewerConfirmed(w, k, e.t) && e.remote == ViewerFp(k);
      var ev :| && Connected(ev) in w.viewers[k].log && ev.local == e.remote && ev.remote == e.local
                && HelloMsg(hello) ==
                     HelloMsg(MakeHello(AsViewer(w.viewers[k].cfg.device), ViewerRole, ev.t, ev.local, ev.remote));
      HelloNamesItsMaker(AsViewer(w.viewers[k].cfg.device), ViewerRole, ev.t, ev.local, ev.remote,
                         ViewerRole, e.t, e.remote, e.local);
      assert ev == Ends(e.t, e.remote, e.local);
      assert MetViewer(w, e, viewer);
      HostEventStays(w, w', guesses, i, HelloOk(e, viewer, hello));
    }
  }

  lemma HostActKeeps(w: World, guesses: set<Code>, i: Input)
    requires WInv(w, guesses) && Possible(w, guesses, HostAct(i))
    ensures WInv(w.(host := Step(w.host, i)), guesses)
  {
    var h := w.host;
    var h' := Step(h, i);
    var w' := w.(host := h');
    HostRuns.StepKeepsOrder(h, i);
    StepAdds(h, i);
    assert Extends(w, w');
    var added := h'.log[|h.log|..];
    assert h'.log == h.log + added;
    forall j | 0 <= j < |h'.log| ensures HostEventOk(w', guesses, j, h'.log[j]) {
      if j < |h.log| {
        assert h'.log[j] == h.log[j];
        HostEventStays(w, w', guesses, j, h.log[j]);
      } else {
        assert h'.log[j] == added[j - |h.log|];
        NewEventOk(w, guesses, i, w', j);
      }
    }
    forall k | 0 <= k < |w'.viewers| ensures ViewerSideOk(w', guesses, k) {
      ViewerStays(w, w', guesses, k);
    }
  }

  lemma NewEventOk(w: World, guesses: set<Code>, i: Input, w': World, j: nat)
    requires WInv(w, guesses) && Possible(w, guesses, HostAct(i)) && w' == w.(host := Step(w.host, i))
    requires Extends(w, w') && |w.host.log| <= j < |w'.host.log|
    requires NewEvents(w.host, i, w'.host.log[|w.host.log|..])
    ensures HostEventOk(w', guesses, j, w'.host.log[j])
  {
    var n := |w.host.log|;
    var added := w'.host.log[n..];
    var ev := w'.host.log[j];
    assert ev == added[j - n];
    match ev {
      case MacOk(t) =>
        assert HostRuns.Last(w.host.log).Replied? && HostRuns.Last(w.host.log).t == t;
        assert HostEventOk(w, guesses, n - 1, w.host.log[n - 1]);
        HostMacKeeps(w, guesses, w', t, j);
      case Answered(e) =>
        assert HostRuns.Last(w.host.log).t == e.t;
        HostAnswerKeeps(w, guesses, w', e, j);
      case HelloOk(e, viewer, hello) => HostHelloKeeps(w, guesses, w', e, viewer, hello, j);
      case _ =>
    }
  }

  // A viewer moves.

  lemma ViewerActKeeps(w: World, guesses: set<Code>, k: nat, vi: ViewerInput)
    requires WInv(w, guesses) && Possible(w, guesses, ViewerAct(k, vi))
    ensures WInv(w.(viewers := w.viewers[k := VStep(w.viewers[k], vi)]), guesses)
  {
    var v := w.viewers[k];
    var v' := VStep(v, vi);
    var w' := w.(viewers := w.viewers[k := v']);
    ViewerAdds(v, vi);
    assert Extends(w, w');
    HostStays(w, w', guesses);
    forall j | 0 <= j < |w'.viewers| ensures ViewerSideOk(w', guesses, j) {
      assert ViewerSideOk(w, guesses, j);
      if j != k {
        ViewerStays(w, w', guesses, j);
      } else {
        forall ev | ev in v'.log ensures ViewerEventOk(w', guesses, k, ev) {
          if ev in v.log {
            ViewerEventStays(w, w', guesses, k, ev);
          } else {
            NewViewerEventOk(w, guesses, k, vi, w', ev);
          }
        }
        ViewerStaysAt(v, k, vi);
      }
    }
  }

  lemma ViewerAdds(v: Viewer, vi: ViewerInput)
    ensures
      var v' := VStep(v, vi);
      v'.cfg == v.cfg && v.log <= v'.log && |v'.log| <= |v.log| + 1
  {
  }

  lemma ViewerStaysAt(v: Viewer, k: nat, vi: ViewerInput)
    requires ViewerAt(v, k) && (vi.VHeard? ==> vi.luck.pa == ViewerShare(k) && vi.luck.local == ViewerFp(k))
    ensures ViewerAt(VStep(v, vi), k)
  {
    var v' := VStep(v, vi);
    ViewerAdds(v, vi);
    if |v'.log| > |v.log| { assert v'.log[|v.log|] in v'.log; }
  }

  lemma NewViewerEventOk(w: World, guesses: set<Code>, k: nat, vi: ViewerInput, w': World, ev: ViewerEvent)
    requires WInv(w, guesses) && Possible(w, guesses, ViewerAct(k, vi)) && Extends(w, w')
    requires w' == w.(viewers := w.viewers[k := VStep(w.viewers[k], vi)])
    requires ev in w'.viewers[k].log && ev !in w.viewers[k].log
    ensures ViewerEventOk(w', guesses, k, ev)
  {
    var v := w.viewers[k];
    assert ViewerSideOk(w, guesses, k);
    EvidenceStays(w, w', guesses);
    match ev {
      case Started(pa) =>
      case HostMacOk(t, local) =>
      case Connected(e) => ViewerConnectedOk(w, guesses, k, vi, e);
      case HostHelloOk(e, host) => ViewerHelloOk(w, guesses, k, vi, e, host);
      case AcceptHeard(e, host) => ViewerAcceptOk(w, guesses, k, vi, e, host);
    }
  }

  lemma ViewerConnectedOk(w: World, guesses: set<Code>, k: nat, vi: ViewerInput, e: Ends)
    requires WInv(w, guesses) && Possible(w, guesses, ViewerAct(k, vi))
    requires Connected(e) in VStep(w.viewers[k], vi).log && Connected(e) !in w.viewers[k].log
    ensures ViewerEventOk(w, guesses, k, Connected(e))
  {
    var v := w.viewers[k];
    assert ViewerSideOk(w, guesses, k);
    assert v.pc == AwaitAnswer(e.t, e.local);
    assert SayableSeal(w, guesses, Sealed(e.t, HostToViewer, 0, Sdp(e.remote)));
    assert ViewerEventOk(w, guesses, k, HostMacOk(e.t, e.local));
    if e.t.code !in guesses {
      var eh :| HostAnswered(w, eh) && eh.t == e.t && Sdp(e.remote) == Sdp(eh.local);
      assert eh.local == e.remote;
    }
  }

  /** The host's ends are determined by its fingerprint. */
  lemma SameFingerprintSameEnds(w: World, e: Ends, e': Ends)
    requires HostAnswered(w, e) && HostAnswered(w, e') && e.local == e'.local
    ensures e == e'
  {
    assert w.host.log[e.local.serial + 1] == Answered(e) && w.host.log[e'.local.serial + 1] == Answered(e');
  }

  lemma HelloComesFrom(v: Viewer, vi: ViewerInput, e: Ends, host: PeerIdentity)
    requires HostHelloOk(e, host) in VStep(v, vi).log && HostHelloOk(e, host) !in v.log
    ensures v.pc == AwaitHostHello(e) && vi.VControlIn? && vi.n.Msg? && vi.n.control.HelloMsg?
    ensures VerifyHello(vi.n.control.hello, HostRole, e.t, e.remote, e.local) == Some(host)
  {
  }

  lemma ViewerHelloOk(w: World, guesses: set<Code>, k: nat, vi: ViewerInput, e: Ends, host: PeerIdentity)
    requires WInv(w, guesses) && Possible(w, guesses, ViewerAct(k, vi))
    requires HostHelloOk(e, host) in VStep(w.viewers[k], vi).log && HostHelloOk(e, host) !in w.viewers[k].log
    ensures ViewerEventOk(w, guesses, k, HostHelloOk(e, host))
  {
    var v := w.viewers[k];
    assert ViewerSideOk(w, guesses, k);
    HelloComesFrom(v, vi, e, host);
    assert ViewerEventOk(w, guesses, k, Connected(e));
    ViewerAdds(v, vi);
    if e.t.code !in guesses {
      HostHelloHeard(w, guesses, e, vi.n.control.hello, host);
    }
  }

  lemma HostHelloHeard(w: World, guesses: set<Code>, e: Ends, hello: Hello, host: PeerIdentity)
    requires exists eh :: HostAnswered(w, eh) && eh.t == e.t && eh.local == e.remote
    requires Hearable(w, e.remote, e.local, HelloMsg(hello))
    requires VerifyHello(hello, HostRole, e.t, e.remote, e.local) == Some(host)
    ensures host == IdentityOf(w.host.cfg.device)
  {
    var eh :| HostAnswered(w, eh) && eh.t == e.t && eh.local == e.remote;
    assert e.remote.owner == HostParty;
    {
      var e' :| && HostAnswered(w, e') && e'.local == e.remote && e'.remote == e.local
                && HelloMsg(hello) == HelloMsg(MakeHello(w.host.cfg.device, HostRole, e'.t, e'.local, e'.remote));
      HelloNamesItsMaker(w.host.cfg.device, HostRole, e'.t, e'.local, e'.remote, HostRole, e.t, e.remote, e.local);
    }
  }

  lemma AcceptComesFrom(v: Viewer, vi: ViewerInput, e: Ends, host: PeerIdentity)
    requires AcceptHeard(e, host) in VStep(v, vi).log && AcceptHeard(e, host) !in v.log
    ensures v.pc == AwaitDecision(e, host) && vi == VControlIn(Msg(DecisionMsg(Accepted)))
  {
  }

  lemma ViewerAcceptOk(w: World, guesses: set<Code>, k: nat, vi: ViewerInput, e: Ends, host: PeerIdentity)
    requires WInv(w, guesses) && Possible(w, guesses, ViewerAct(k, vi))
    requires AcceptHeard(e, host) in VStep(w.viewers[k], vi).log && AcceptHeard(e, host) !in w.viewers[k].log
    ensures ViewerEventOk(w, guesses, k, AcceptHeard(e, host))
  {
    var v := w.viewers[k];
    assert ViewerSideOk(w, guesses, k);
    AcceptComesFrom(v, vi, e, host);
    assert ViewerEventOk(w, guesses, k, HostHelloOk(e, host));
    assert ViewerEventOk(w, guesses, k, Connected(e));
    if e.t.code !in guesses {
      var eh :| HostAnswered(w, eh) && eh.t == e.t && eh.local == e.remote;
      assert Hearable(w, e.remote, e.local, DecisionMsg(Accepted));
      var e' :| HostAnswered(w, e') && e'.local == e.remote && e'.remote == e.local && HostAccepted(w, e');
      SameFingerprintSameEnds(w, eh, e');
      assert e' == Ends(e.t, e.remote, e.local);
    }
  }

  lemma StepKeeps(w: World, guesses: set<Code>, a: Act)
    requires WInv(w, guesses)
    ensures WInv(WStep(w, guesses, a), guesses)
  {
    if Possible(w, guesses, a) {
      match a {
        case HostAct(i) => HostActKeeps(w, guesses, i);
        case ViewerAct(k, vi) => ViewerActKeeps(w, guesses, k, vi);
        case NewViewer(cfg) =>
          var w' := WStep(w, guesses, a);
          HostStays(w, w', guesses);
          forall k | 0 <= k < |w'.viewers| ensures ViewerSideOk(w', guesses, k) {
            if k < |w.viewers| { ViewerStays(w, w', guesses, k); }
          }
      }
    }
  }

  ghost function Start0(cfg: HostConfig, code: Code): World { World(Initial(cfg, code), []) }

  lemma {:induction false} RunKeeps(cfg: HostConfig, code: Code, guesses: set<Code>, acts: seq<Act>)
    ensures WInv(WRun(Start0(cfg, code), guesses, acts), guesses)
  {
    if acts != [] {
      RunKeeps(cfg, code, guesses, acts[..|acts| - 1]);
      StepKeeps(WRun(Start0(cfg, code), guesses, acts[..|acts| - 1]), guesses, acts[|acts| - 1]);
    }
  }
}
