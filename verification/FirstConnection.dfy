/**
 What the first connection guarantees against the relay of `RelayAdversary`: what each side reveals and
 when, and that the two sides agree. All of it is about codes that the adversary does not try; for the
 others it may simply be one of the two sides.
 */
module FirstConnection {
  import opened Wrappers
  import opened Protocol
  import opened HostMachine
  import opened ViewerMachine
  import opened RelayAdversary
  import HostRuns
  import L = Limiter

  // Every message sent is one that the log accounts for.

  ghost predicate ViewerMayRelay(v: Viewer, m: PakeMsg) {
    match m
    case Start(pa) => Started(pa) in v.log
    case Confirm(macA, sealed) =>
      exists t, local :: HostMacOk(t, local) in v.log && macA == MacA(t) && sealed == Sealed(t, ViewerToHost, 0, Sdp(local))
    case _ => false
  }

  ghost predicate ViewerSpeaks(v: Viewer) {
    && (forall m :: m in v.said ==> ViewerMayRelay(v, m))
    && (forall o :: o in v.out && o.ToRelay? ==> ViewerMayRelay(v, o.m))
  }

  lemma ViewerMayStill(v: Viewer, v': Viewer)
    requires v.log <= v'.log
    ensures forall m :: ViewerMayRelay(v, m) ==> ViewerMayRelay(v', m)
  {
  }

  lemma ViewerStepSpeaks(v: Viewer, vi: ViewerInput)
    requires ViewerSpeaks(v)
    ensures ViewerSpeaks(VStep(v, vi))
  {
    var v' := VStep(v, vi);
    ViewerAdds(v, vi);
    ViewerMayStill(v, v');
    if VExpects(v, vi) {
      if vi.VSent? {
        assert v.out[0] in v.out;
        assert forall o :: o in v.out[1..] ==> o in v.out;
      } else {
        assert v'.said == v.said;
        if v'.log != v.log { assert v'.log[|v.log|] in v'.log; }
      }
    }
  }

  ghost predicate HostMayRelay(h: Host, m: PakeMsg) {
    match m
    case Reply(pb, macB) => exists t, at, draw :: Replied(t, at, draw) in h.log && pb == t.pb && macB == MacB(t)
    case Answer(sealed) => exists e :: Answered(e) in h.log && sealed == Sealed(e.t, HostToViewer, 0, Sdp(e.local))
    case Rejected => true
    case RetryAfter(ms) => ms > 0
    case _ => false
  }

  ghost predicate HostSpeaks(h: Host) {
    && (forall m :: m in h.said && m.HostRelay? ==> HostMayRelay(h, m.msg))
    && (forall o :: o in h.out && o.ToServer? && o.m.HostRelay? ==> HostMayRelay(h, o.m.msg))
  }

  lemma HostMayStill(h: Host, h': Host)
    requires h.log <= h'.log
    ensures forall m :: HostMayRelay(h, m) ==> HostMayRelay(h', m)
  {
  }

  lemma BeginSpeaks(h: Host, at: nat)
    requires HostSpeaks(h)
    ensures HostSpeaks(Begin(h, at))
  {
    HostMayStill(h, Begin(h, at));
    if L.Check(h.limiter, at).Err? { L.WaitMillisIsLeast(h.limiter, at, 0); }
  }

  lemma HearStartSpeaks(h: Host, r: LinkRecv<ServerToHost>, at: nat, luck: Luck)
    requires HostSpeaks(h) && h.out == []
    ensures HostSpeaks(HearStart(h, r, at, luck))
  {
    var h' := HearStart(h, r, at, luck);
    HostMayStill(h, h');
    if h'.log != h.log { assert h'.log[|h.log|] in h'.log; }
  }

  lemma HearConfirmSpeaks(h: Host, t: Transcript, r: LinkRecv<ServerToHost>, luck: Luck)
    requires HostSpeaks(h) && h.out == []
    ensures HostSpeaks(HearConfirm(h, t, r, luck))
  {
    var h' := HearConfirm(h, t, r, luck);
    HostMayStill(h, h');
    if h'.pc.AwaitOpen? && h'.log != h.log { assert h'.log[|h.log| + 1] in h'.log; }
  }

  lemma HeardSpeaks(h: Host, r: LinkRecv<ServerToHost>, at: nat, luck: Luck)
    requires HostSpeaks(h) && h.out == []
    ensures HostSpeaks(Hear(h, r, at, luck))
  {
    match h.pc {
      case Idle => BeginSpeaks(h, at);
      case AwaitStart => HearStartSpeaks(h, r, at, luck);
      case AwaitConfirm(t) => HearConfirmSpeaks(h, t, r, luck);
      case _ =>
    }
  }

  lemma HostStepSpeaks(h: Host, i: Input)
    requires HostSpeaks(h)
    ensures HostSpeaks(Step(h, i))
  {
    var h' := Step(h, i);
    StepAdds(h, i);
    HostMayStill(h, h');
    if Expects(h, i) {
      if i.Heard? {
        HeardSpeaks(h.(now := i.at), i.r, i.at, i.luck);
      } else if i.Sent? {
        assert h.out[0] in h.out;
        assert forall o :: o in h.out[1..] ==> o in h.out;
      }
    }
  }

  ghost predicate AllSpeak(w: World) {
    HostSpeaks(w.host) && forall k :: 0 <= k < |w.viewers| ==> ViewerSpeaks(w.viewers[k])
  }

  lemma {:induction false} RunSpeaks(cfg: HostConfig, code: Code, guesses: set<Code>, acts: seq<Act>)
    ensures AllSpeak(WRun(Start0(cfg, code), guesses, acts))
  {
    if acts != [] {
      RunSpeaks(cfg, code, guesses, acts[..|acts| - 1]);
      var w := WRun(Start0(cfg, code), guesses, acts[..|acts| - 1]);
      match acts[|acts| - 1] {
        case HostAct(i) => HostStepSpeaks(w.host, i);
        case ViewerAct(k, vi) => if k < |w.viewers| { ViewerStepSpeaks(w.viewers[k], vi); }
        case NewViewer(_) =>
      }
    }
  }

  // What is revealed.

  /**
   A viewer sends its sealed offer only after it verified a MAC that the host itself computed, for the
   viewer's own share, under the viewer's code and host ID; and the relay cannot open the offer.
   */
  lemma OfferOnlyForTheHost(cfg: HostConfig, code: Code, guesses: set<Code>, acts: seq<Act>, k: nat, m: PakeMsg)
    requires k < |WRun(Start0(cfg, code), guesses, acts).viewers|
    requires
      var v := WRun(Start0(cfg, code), guesses, acts).viewers[k];
      m in v.said && m.Confirm? && v.cfg.code !in guesses
    ensures
      var w := WRun(Start0(cfg, code), guesses, acts);
      var v := w.viewers[k];
      && m.sealedOffer.Sealed? && m.macA == MacA(m.sealedOffer.key)
      && var t := m.sealedOffer.key;
      && HostReplied(w, t) && ShareOf(t, k) && t.code == v.cfg.code && t.hostId == v.cfg.hostId == cfg.hostId
      && !KnowsKey(guesses, t)
  {
    RunSpeaks(cfg, code, guesses, acts);
    RunKeeps(cfg, code, guesses, acts);
    ConfigStays(cfg, code, guesses, acts);
    var w := WRun(Start0(cfg, code), guesses, acts);
    ConfirmIsEarned(w, guesses, k, m);
  }

  lemma ConfirmIsEarned(w: World, guesses: set<Code>, k: nat, m: PakeMsg)
    requires WInv(w, guesses) && AllSpeak(w) && k < |w.viewers| && m in w.viewers[k].said && m.Confirm?
    ensures
      && m.sealedOffer.Sealed? && m.macA == MacA(m.sealedOffer.key)
      && var (t, v) := (m.sealedOffer.key, w.viewers[k]);
      && ShareOf(t, k) && t.code == v.cfg.code && t.hostId == v.cfg.hostId
      && (v.cfg.code !in guesses ==> HostReplied(w, t) && t.hostId == w.host.cfg.hostId)
  {
    var v := w.viewers[k];
    assert ViewerSideOk(w, guesses, k) && ViewerSpeaks(v);
    assert ViewerMayRelay(v, m);
    var t, local :|
      HostMacOk(t, local) in v.log && m.macA == MacA(t) && m.sealedOffer == Sealed(t, ViewerToHost, 0, Sdp(local));
    assert ViewerEventOk(w, guesses, k, HostMacOk(t, local));
    if v.cfg.code !in guesses {
      assert HostEventOk(w, guesses, t.pb.serial, w.host.log[t.pb.serial]);
    }
  }

  lemma {:induction false} ConfigStays(cfg: HostConfig, code: Code, guesses: set<Code>, acts: seq<Act>)
    ensures WRun(Start0(cfg, code), guesses, acts).host.cfg == cfg
  {
    if acts != [] {
      ConfigStays(cfg, code, guesses, acts[..|acts| - 1]);
      var w := WRun(Start0(cfg, code), guesses, acts[..|acts| - 1]);
      if acts[|acts| - 1].HostAct? { ConfigStep(w.host, acts[|acts| - 1].i); }
    }
  }

  lemma ConfigStep(h: Host, i: Input)
    ensures Step(h, i).cfg == h.cfg
  {
  }

  /**
   With a code the host never replied under, or another host ID, a viewer never sends its offer, however
   the relay behaves.
   */
  lemma MismatchRevealsNothing(cfg: HostConfig, code: Code, guesses: set<Code>, acts: seq<Act>, k: nat, m: PakeMsg)
    requires k < |WRun(Start0(cfg, code), guesses, acts).viewers|
    requires WRun(Start0(cfg, code), guesses, acts).viewers[k].cfg.code !in guesses
    requires
      var w := WRun(Start0(cfg, code), guesses, acts);
      || w.viewers[k].cfg.hostId != cfg.hostId
      || forall i :: 0 <= i < |w.host.log| && w.host.log[i].Replied? ==> w.host.log[i].t.code != w.viewers[k].cfg.code
    ensures m in WRun(Start0(cfg, code), guesses, acts).viewers[k].said ==> m.Start?
  {
    RunSpeaks(cfg, code, guesses, acts);
    var w := WRun(Start0(cfg, code), guesses, acts);
    if m in w.viewers[k].said && !m.Start? {
      assert ViewerSpeaks(w.viewers[k]) && ViewerMayRelay(w.viewers[k], m);
      OfferOnlyForTheHost(cfg, code, guesses, acts, k, m);
    }
  }

  /**
   The host sends its sealed answer only after it verified the MAC of an honest viewer that holds the same
   code, host ID and transcript; the offer it answered is that viewer's own; and the relay cannot open the
   answer.
   */
  lemma AnswerOnlyForTheViewer(cfg: HostConfig, code: Code, guesses: set<Code>, acts: seq<Act>, m: PakeMsg)
    requires
      var h := WRun(Start0(cfg, code), guesses, acts).host;
      HostRelay(m) in h.said && m.Answer? && (m.sealedAnswer.Sealed? ==> m.sealedAnswer.key.code !in guesses)
    ensures
      var w := WRun(Start0(cfg, code), guesses, acts);
      && m.sealedAnswer.Sealed?
      && var t := m.sealedAnswer.key;
      && !KnowsKey(guesses, t)
      && exists k: nat, i: nat ::
           && ShareOf(t, k) && ViewerConfirmed(w, k, t)
           && w.viewers[k].cfg.code == t.code && w.viewers[k].cfg.hostId == t.hostId == cfg.hostId
           && 0 < i < |w.host.log| && w.host.log[i - 1] == MacOk(t)
           && w.host.log[i].Answered? && w.host.log[i].e.t == t && w.host.log[i].e.remote == ViewerFp(k)
           && m.sealedAnswer == Sealed(t, HostToViewer, 0, Sdp(w.host.log[i].e.local))
  {
    RunSpeaks(cfg, code, guesses, acts);
    RunKeeps(cfg, code, guesses, acts);
    ConfigStays(cfg, code, guesses, acts);
    var w := WRun(Start0(cfg, code), guesses, acts);
    assert HostMayRelay(w.host, m);
    var e :| Answered(e) in w.host.log && m.sealedAnswer == Sealed(e.t, HostToViewer, 0, Sdp(e.local));
    var i :| 0 <= i < |w.host.log| && w.host.log[i] == Answered(e);
    AnswerIsEarned(w, guesses, e, i);
  }

  lemma AnswerIsEarned(w: World, guesses: set<Code>, e: Ends, i: nat)
    requires WInv(w, guesses) && i < |w.host.log| && w.host.log[i] == Answered(e) && e.t.code !in guesses
    ensures
      exists k: nat, i: nat ::
        && ShareOf(e.t, k) && ViewerConfirmed(w, k, e.t)
        && w.viewers[k].cfg.code == e.t.code && w.viewers[k].cfg.hostId == e.t.hostId == w.host.cfg.hostId
        && 0 < i < |w.host.log| && w.host.log[i - 1] == MacOk(e.t)
        && w.host.log[i] == Answered(Ends(e.t, e.local, ViewerFp(k)))
  {
    HostRuns.OrderAt(w.host.cfg, w.host.log, i);
    assert HostEventOk(w, guesses, i, w.host.log[i]);
    var k: nat :| ShareOf(e.t, k) && ViewerConfirmed(w, k, e.t) && e.remote == ViewerFp(k);
    assert ViewerSideOk(w, guesses, k);
    assert ViewerEventOk(w, guesses, k, HostMacOk(e.t, ViewerFp(k)));
    var j := e.t.pb.serial;
    assert HostEventOk(w, guesses, j, w.host.log[j]);
    assert 0 < i < |w.host.log| && w.host.log[i - 1] == MacOk(e.t)
        && w.host.log[i] == Answered(Ends(e.t, e.local, ViewerFp(k)));
  }

  // Agreement.

  /** The host's whole attempt, event after event, that ends in accepting `viewer` at `e`. */
  predicate WholeAttempt(cfg: HostConfig, log: seq<HostEvent>, i: nat, e: Ends, viewer: PeerIdentity) {
    && 6 <= i < |log|
    && log[i - 6].Began?
    && log[i - 5].Replied? && log[i - 5].t == e.t
    && log[i - 4] == MacOk(e.t)
    && log[i - 3] == Answered(e)
    && log[i - 2].HelloOk? && log[i - 2].e == e && log[i - 2].viewer == viewer
    && VerifyHello(log[i - 2].hello, ViewerRole, e.t, e.remote, e.local) == Some(viewer)
    && log[i - 2].hello.version == cfg.device.version
    && log[i - 1] == Granted(e, viewer)
    && log[i] == AcceptSent(e, viewer)
  }

  /**
   If a viewer obtains a session, the host went through a whole attempt with this very viewer: same code,
   host ID and transcript, hence the same keys and hello binding; mirrored fingerprints; the viewer's
   hello verified with an equal version; approval given; acceptance sent. Each side holds the identity of
   the device that the other one is.
   */
  lemma Agreement(cfg: HostConfig, code: Code, guesses: set<Code>, acts: seq<Act>, k: nat, host: PeerIdentity)
    requires k < |WRun(Start0(cfg, code), guesses, acts).viewers|
    requires
      var v := WRun(Start0(cfg, code), guesses, acts).viewers[k];
      v.pc == Done(Ok(host)) && v.cfg.code !in guesses
    ensures
      var w := WRun(Start0(cfg, code), guesses, acts);
      var v := w.viewers[k];
      && host == IdentityOf(cfg.device)
      && exists e: Ends, i: nat ::
           && e.t.code == v.cfg.code && e.t.hostId == v.cfg.hostId && ShareOf(e.t, k)
           && Connected(Ends(e.t, e.remote, e.local)) in v.log
           && WholeAttempt(cfg, w.host.log, i, e, IdentityOf(v.cfg.device))
  {
    RunKeeps(cfg, code, guesses, acts);
    ConfigStays(cfg, code, guesses, acts);
    AgreementIn(WRun(Start0(cfg, code), guesses, acts), guesses, k, host);
  }

  lemma AgreementIn(w: World, guesses: set<Code>, k: nat, host: PeerIdentity)
    requires WInv(w, guesses) && k < |w.viewers| && w.viewers[k].pc == Done(Ok(host)) && w.viewers[k].cfg.code !in guesses
    ensures
      var v := w.viewers[k];
      && host == IdentityOf(w.host.cfg.device)
      && exists e: Ends, i: nat ::
           && e.t.code == v.cfg.code && e.t.hostId == v.cfg.hostId && ShareOf(e.t, k)
           && Connected(Ends(e.t, e.remote, e.local)) in v.log
           && WholeAttempt(w.host.cfg, w.host.log, i, e, IdentityOf(v.cfg.device))
  {
    var v := w.viewers[k];
    assert ViewerSideOk(w, guesses, k);
    var heard := v.log[|v.log| - 1];
    assert heard in v.log;
    assert ViewerEventOk(w, guesses, k, heard);
    assert ViewerEventOk(w, guesses, k, HostHelloOk(heard.e, host));
    assert ViewerEventOk(w, guesses, k, Connected(heard.e));
    assert ViewerEventOk(w, guesses, k, HostMacOk(heard.e.t, heard.e.local));
    var e := Ends(heard.e.t, heard.e.remote, heard.e.local);
    assert Ends(e.t, e.remote, e.local) == heard.e;
    var i :| 0 <= i < |w.host.log| && w.host.log[i].AcceptSent? && w.host.log[i].e == e;
    HostRuns.EarnedIn(w.host.cfg, w.host.log, i);
    assert HostEventOk(w, guesses, i - 2, w.host.log[i - 2]);
    assert MetViewer(w, e, w.host.log[i].viewer);
    assert WholeAttempt(w.host.cfg, w.host.log, i, e, IdentityOf(v.cfg.device));
  }

  /**
   And conversely: whom the host accepts is an honest viewer with the same code, host ID and transcript,
   connected to this host at the mirrored ends, under the identity the host was shown.
   */
  lemma AcceptedViewerIsGenuine(cfg: HostConfig, code: Code, guesses: set<Code>, acts: seq<Act>, i: nat)
    requires
      var log := WRun(Start0(cfg, code), guesses, acts).host.log;
      i < |log| && log[i].AcceptSent? && log[i].e.t.code !in guesses
    ensures
      var w := WRun(Start0(cfg, code), guesses, acts);
      var e := w.host.log[i].e;
      && WholeAttempt(cfg, w.host.log, i, e, w.host.log[i].viewer)
      && e.t.hostId == cfg.hostId
      && exists k: nat ::
           && k < |w.viewers| && ShareOf(e.t, k)
           && w.viewers[k].cfg.code == e.t.code && w.viewers[k].cfg.hostId == e.t.hostId
           && Connected(Ends(e.t, e.remote, e.local)) in w.viewers[k].log
           && w.host.log[i].viewer == IdentityOf(w.viewers[k].cfg.device)
  {
    RunKeeps(cfg, code, guesses, acts);
    ConfigStays(cfg, code, guesses, acts);
    GenuineIn(WRun(Start0(cfg, code), guesses, acts), guesses, i);
  }

  lemma GenuineIn(w: World, guesses: set<Code>, i: nat)
    requires WInv(w, guesses) && i < |w.host.log| && w.host.log[i].AcceptSent? && w.host.log[i].e.t.code !in guesses
    ensures
      var e := w.host.log[i].e;
      && WholeAttempt(w.host.cfg, w.host.log, i, e, w.host.log[i].viewer)
      && e.t.hostId == w.host.cfg.hostId
      && exists k: nat ::
           && k < |w.viewers| && ShareOf(e.t, k)
           && w.viewers[k].cfg.code == e.t.code && w.viewers[k].cfg.hostId == e.t.hostId
           && Connected(Ends(e.t, e.remote, e.local)) in w.viewers[k].log
           && w.host.log[i].viewer == IdentityOf(w.viewers[k].cfg.device)
  {
    var e := w.host.log[i].e;
    HostRuns.EarnedIn(w.host.cfg, w.host.log, i);
    assert HostEventOk(w, guesses, i - 2, w.host.log[i - 2]);
    assert HostEventOk(w, guesses, i - 5, w.host.log[i - 5]);
    var k: nat :|
      && ShareOf(e.t, k) && ViewerConfirmed(w, k, e.t) && e.remote == ViewerFp(k)
      && Connected(Ends(e.t, e.remote, e.local)) in w.viewers[k].log
      && w.host.log[i - 2].viewer == IdentityOf(w.viewers[k].cfg.device);
    assert ViewerSideOk(w, guesses, k);
    assert ViewerEventOk(w, guesses, k, HostMacOk(e.t, ViewerFp(k)));
  }

  // What a guess costs.

  /** The host of a world is a host like any other: what is proved of all runs of a host holds here. */
  lemma {:induction false} WorldsHostRuns(cfg: HostConfig, code: Code, guesses: set<Code>, acts: seq<Act>)
    returns (inputs: seq<Input>)
    ensures WRun(Start0(cfg, code), guesses, acts).host == HostMachine.Run(Initial(cfg, code), inputs)
    decreases |acts|
  {
    inputs := [];
    if acts != [] {
      var front := acts[..|acts| - 1];
      inputs := WorldsHostRuns(cfg, code, guesses, front);
      var w := WRun(Start0(cfg, code), guesses, front);
      var a := acts[|acts| - 1];
      if a.HostAct? && Possible(w, guesses, a) {
        var more := inputs + [a.i];
        assert more[..|inputs|] == inputs;
        inputs := more;
      }
    }
  }

  /** The replies in a stretch without a right MAC: how long they take, and how many are for one code. */
  predicate Rationed(replies: seq<(nat, nat)>) {
    var n := |replies|;
    && (n > 0 ==> replies[n - 1].0 >= replies[0].0 + L.TotalWait(n - 1) * L.NANOS_PER_SECOND)
    && forall a, b :: 0 <= a <= b < n && replies[a].1 == replies[b].1 ==> b - a < 5
  }

  /**
   Agreement and guess rate together. Whom the host accepts, against any relay, is an honest viewer with the same
   code, host ID and transcript, under its true identity; or the adversary guessed the code the host replied
   for. A guess is only as good as a reply: each stretch of the host's log up to the accepted MAC, in which no
   MAC was accepted before, has taken the total wait of its replies, and no six of them were for the same code.
   */
  lemma AcceptedIsGenuineOrGuessed(cfg: HostConfig, code: Code, guesses: set<Code>, acts: seq<Act>, i: nat, j: nat)
    requires
      var log := WRun(Start0(cfg, code), guesses, acts).host.log;
      i < |log| && log[i].AcceptSent?
    ensures
      var w := WRun(Start0(cfg, code), guesses, acts);
      var (log, e) := (w.host.log, w.host.log[i].e);
      && WholeAttempt(cfg, log, i, e, log[i].viewer)
      && (e.t.code in guesses || MetViewer(w, e, log[i].viewer))
      && (j <= i - 4 && HostRuns.NoMac(log[j..i - 4]) ==> Rationed(HostRuns.Replies(log[j..i - 4])))
  {
    RunKeeps(cfg, code, guesses, acts);
    ConfigStays(cfg, code, guesses, acts);
    AcceptedIn(WRun(Start0(cfg, code), guesses, acts), guesses, i);
    if j <= i - 4 && HostRuns.NoMac(WRun(Start0(cfg, code), guesses, acts).host.log[j..i - 4]) {
      RepliesAreRationed(cfg, code, guesses, acts, j, i - 4);
    }
  }

  lemma AcceptedIn(w: World, guesses: set<Code>, i: nat)
    requires WInv(w, guesses) && i < |w.host.log| && w.host.log[i].AcceptSent?
    ensures
      var (log, e) := (w.host.log, w.host.log[i].e);
      WholeAttempt(w.host.cfg, log, i, e, log[i].viewer) && (e.t.code in guesses || MetViewer(w, e, log[i].viewer))
  {
    HostRuns.EarnedIn(w.host.cfg, w.host.log, i);
    assert HostEventOk(w, guesses, i - 2, w.host.log[i - 2]);
  }

  lemma RepliesAreRationed(cfg: HostConfig, code: Code, guesses: set<Code>, acts: seq<Act>, j: nat, m: nat)
    requires j <= m <= |WRun(Start0(cfg, code), guesses, acts).host.log|
    requires HostRuns.NoMac(WRun(Start0(cfg, code), guesses, acts).host.log[j..m])
    ensures Rationed(HostRuns.Replies(WRun(Start0(cfg, code), guesses, acts).host.log[j..m]))
  {
    var inputs := WorldsHostRuns(cfg, code, guesses, acts);
    HostRuns.GuessRate(cfg, code, inputs, j, m);
  }
}
