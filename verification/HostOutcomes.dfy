/**
 Why the host's attempt with a viewer ended as it did: for each outcome, the one thing it was told that decided
 it, and what the viewer is then told.

 `Decides` is read from the outcome to its cause and does not mention the machine's step functions; the theorem
 is that the machine takes an outcome exactly when its cause occurs.
 */
module HostOutcomes {
  import opened Wrappers
  import opened Protocol
  import opened HostMachine
  import L = Limiter
  import HostRuns

  /** The outcome that is already certain, unless signaling breaks. */
  function Decided(pc: Pc): Option<Outcome> {
    match pc
    case Finished(o) => Some(o)
    case Refusing(_, f) => Some(Failed(f))
    case Lingering(f, _) => Some(Failed(f))
    case _ => None
  }

  predicate Hears(i: Input, m: ServerToHost) { i.Heard? && i.r == Got(m) }

  /** A message of the key exchange, relayed. */
  predicate HearsPake(i: Input) { i.Heard? && i.r.Got? && i.r.msg.RelayToHost? && i.r.msg.payload.Pake? }

  /** The viewer's MAC and offer; `right`: the MAC is that of this transcript. */
  predicate Confirms(h: Host, i: Input, right: bool) {
    && h.pc.AwaitConfirm? && HearsPake(i) && i.r.msg.payload.msg.Confirm?
    && right == (i.r.msg.payload.msg.macA == MacA(h.pc.t))
  }

  /** With the right MAC comes an offer; `opens`: sealed by the viewer for this session, as its first, and a text. */
  predicate Offers(h: Host, i: Input, opens: bool) {
    && Confirms(h, i, true)
    && var s := i.r.msg.payload.msg.sealedOffer;
    opens == (s.Sealed? && s.key == h.pc.t && s.dir == ViewerToHost && s.counter == 0 && !s.body.NotUtf8?)
  }

  /** The viewer's hello; `good`: of the viewer's role, for these ends. */
  predicate Greets(h: Host, i: Input, good: bool) {
    && h.pc.AwaitHello? && i.ControlIn? && i.n.Msg? && i.n.control.HelloMsg?
    && var e := h.pc.e;
    good == VerifyHello(i.n.control.hello, ViewerRole, e.t, e.remote, e.local).Some?
  }

  /** A message where another one, or none, was due. */
  predicate OutOfTurn(h: Host, i: Input) {
    || (h.pc.AwaitStart? && i.Heard? && i.r.Got? && i.r.msg != ViewerLeft
        && !(HearsPake(i) && i.r.msg.payload.msg.Start? && i.r.msg.payload.msg.pa.Share?))
    || (h.pc.AwaitConfirm? && i.Heard? && i.r.Got? && i.r.msg != ViewerLeft
        && !(HearsPake(i) && i.r.msg.payload.msg.Confirm?))
    || (h.pc.AwaitHello? && i.ControlIn? && (i.n.Malformed? || (i.n.Msg? && !i.n.control.HelloMsg?)))
    || (h.pc.Listening? && i.ControlIn? && (i.n.Malformed? || i.n.Msg?))
  }

  /** `i`, told to a host that waits for it, decides the attempt. */
  predicate Decides(h: Host, i: Input, o: Outcome) {
    match o
    case Session(viewer) => h.pc.Granting? && h.pc.viewer == viewer && i.Sent? && i.ok
    case ViewerGone => h.pc.AwaitStart? && Hears(i, ViewerLeft)
    case LinkLost => (i.Heard? && i.r.Broken?) || (i.Sent? && !i.ok && h.out != [] && h.out[0].ToServer?)
    case Failed(f) =>
      match f
      case WaitRequired =>
        h.pc.Idle? && Hears(i, ViewerJoined) && h.limiter.waitUntil.Some? && i.at < h.limiter.waitUntil.value
      case NoConfirm => h.pc.AwaitConfirm? && (Hears(i, ViewerLeft) || (i.Heard? && i.r.Quiet?))
      case WrongCode => Confirms(h, i, false)
      case MalformedMsg =>
        || OutOfTurn(h, i) || Offers(h, i, false)
        || (Offers(h, i, true) && i.luck.peerMade && i.r.msg.payload.msg.sealedOffer.body.BadSdp?)
      case Timeout(stage) =>
        || (stage == PakeStage && h.pc.AwaitStart? && i.Heard? && i.r.Quiet?)
        || (stage == ConnectStage && i.OpenIn? && i.how == OpenTimedOut)
        || (stage == HelloStage && h.pc.AwaitHello? && i.ControlIn? && i.n.TimedOut?)
      case DeniedByUser =>
        h.pc.Asking? && i.ApprovalIn? && (i.answer == Some(false) || (i.answer == None && i.at >= h.pc.deadline))
      case WrongVersion => Greets(h, i, true) && i.n.control.hello.version != h.cfg.device.version
      case BadViewerIdentity => Greets(h, i, false) || (i.OpenIn? && i.how == Ready && !i.fingerprintKnown)
      case TransportFailure =>
        || (Offers(h, i, true) && !i.luck.peerMade)
        || (i.OpenIn? && (i.how == OpenClosed || i.how == OpenFailed))
        || (i.ControlIn? && (i.n.Closed? || i.n.NextFailed?))
        || (i.Sent? && !i.ok && h.out != [] && h.out[0].ToPeer?)
  }

  /** What the host then has to say: on the relay, or over the data channel once that is open. */
  function Verdict(h: Host, i: Input, o: Outcome): seq<Out> {
    match o
    case Session(_) => []
    case ViewerGone => []
    case LinkLost => []
    case Failed(f) =>
      match f
      case WaitRequired =>
        var left := if h.limiter.waitUntil.Some? && i.Heard? then h.limiter.waitUntil.value - i.at else 0;
        [ToServer(HostRelay(RetryAfter(L.WaitMillis(if left > 0 then left else 0)))), ToServer(Kick)]
      case NoConfirm => if Hears(i, ViewerLeft) then [] else [ToServer(Kick)]
      case WrongCode => [ToServer(HostRelay(Rejected)), ToServer(Kick)]
      case MalformedMsg => if i.Heard? then [ToServer(HostRelay(Rejected)), ToServer(Kick)] else [ToServer(Kick)]
      case Timeout(_) => [ToServer(Kick)]
      case TransportFailure => [ToServer(Kick)]
      case DeniedByUser =>
        [ToPeer(DecisionMsg(Refused(if i.ApprovalIn? && i.answer == Some(false) then Denied else NoResponse)))]
      case WrongVersion => [ToPeer(DecisionMsg(Refused(VersionMismatch(h.cfg.device.version))))]
      case BadViewerIdentity => if i.OpenIn? then [ToServer(Kick)] else [ToPeer(DecisionMsg(Refused(BadIdentity)))]
  }

  /** `o` is decided in this step, exactly if it has its cause, and the viewer is told what goes with it. */
  predicate DecidedRightly(h: Host, i: Input, o: Outcome) {
    && (Decided(Step(h, i).pc) == Some(o) <==> Decides(h, i, o))
    && (Decides(h, i, o) ==> Step(h, i).out == Verdict(h, i, o))
  }

  lemma StartDecides(h: Host, i: Input, o: Outcome)
    requires Expects(h, i) && i.Heard? && !h.pc.AwaitConfirm?
    ensures DecidedRightly(h, i, o)
  {
  }

  lemma ConfirmDecides(h: Host, i: Input, o: Outcome)
    requires Expects(h, i) && i.Heard? && h.pc.AwaitConfirm?
    ensures DecidedRightly(h, i, o)
  {
  }

  lemma ControlDecides(h: Host, i: Input, o: Outcome)
    requires Expects(h, i) && i.ControlIn? && Decided(h.pc).None?
    ensures DecidedRightly(h, i, o)
  {
  }

  lemma SendingDecides(h: Host, i: Input, o: Outcome)
    requires Expects(h, i) && i.Sent? && Decided(h.pc).None? && HostRuns.Spoken(h)
    ensures DecidedRightly(h, i, o)
  {
    if h.pc.Granting? { assert h.out[1..] == []; }
  }

  lemma ApprovalDecides(h: Host, i: Input, o: Outcome)
    requires Expects(h, i) && i.ApprovalIn?
    ensures DecidedRightly(h, i, o)
  {
    match i.answer {
      case Some(yes) => if yes { assert i.answer == Some(true); } else { assert i.answer == Some(false); }
      case None =>
    }
  }

  lemma StepDecides(h: Host, i: Input, o: Outcome)
    requires Expects(h, i) && Decided(h.pc).None? && HostRuns.Spoken(h)
    ensures DecidedRightly(h, i, o)
  {
    match i {
      case Heard(_, _, _) => if h.pc.AwaitConfirm? { ConfirmDecides(h, i, o); } else { StartDecides(h, i, o); }
      case ControlIn(_, _) => ControlDecides(h, i, o);
      case Sent(_, _, _) => SendingDecides(h, i, o);
      case ApprovalIn(_, _) => ApprovalDecides(h, i, o);
      case _ =>
    }
  }

  /** Once decided, only a break of signaling changes the outcome, until the next viewer is served. */
  lemma DecisionsStay(h: Host, i: Input)
    requires Decided(h.pc).Some? && HostRuns.Spoken(h)
    ensures
      var (o, o') := (Decided(h.pc).value, Decided(Step(h, i).pc));
      if i.Again? && Expects(h, i) then o'.None?
      else o' == if Breaks(h, i) then Some(LinkLost) else Some(o)
  {
  }

  /** A send to signaling fails. */
  predicate Breaks(h: Host, i: Input) { i.Sent? && !i.ok && Expects(h, i) && h.out[0].ToServer? }

  /** The `k`-th input decides the attempt that began at `h`. */
  ghost predicate DecidesAt(h: Host, inputs: seq<Input>, k: nat, o: Outcome) {
    k < |inputs|
    && var now := Run(h, inputs[..k]);
    Decided(now.pc).None? && Expects(now, inputs[k]) && Decides(now, inputs[k], o)
  }

  /** Signaling breaks after the attempt was decided. */
  ghost predicate BreaksLater(h: Host, inputs: seq<Input>) {
    exists k: nat :: BreaksAt(h, inputs, k)
  }

  ghost predicate BreaksAt(h: Host, inputs: seq<Input>, k: nat) {
    k < |inputs|
    && var now := Run(h, inputs[..k]);
    Decided(now.pc).Some? && Breaks(now, inputs[k])
  }

  lemma OneInputMore(h: Host, inputs: seq<Input>, k: nat, o: Outcome)
    requires k < |inputs| - 1
    ensures DecidesAt(h, inputs, k, o) <==> DecidesAt(h, inputs[..|inputs| - 1], k, o)
    ensures BreaksAt(h, inputs, k) <==> BreaksAt(h, inputs[..|inputs| - 1], k)
  {
    assert inputs[..|inputs| - 1][..k] == inputs[..k];
  }

  predicate NoAgain(inputs: seq<Input>) { forall i :: 0 <= i < |inputs| ==> !inputs[i].Again? }

  /**
   In every attempt, from anywhere in any run up to the next call of `serve_next`: an outcome is taken if and
   only if its cause occurred and signaling did not break after it; and if it broke, the cause of another outcome,
   or the break itself, came before.
   */
  lemma {:induction false} OutcomesExactly(h: Host, inputs: seq<Input>, o: Outcome)
    requires HostRuns.Spoken(h) && Decided(h.pc).None? && NoAgain(inputs)
    ensures HostRuns.Spoken(Run(h, inputs))
    ensures BreaksLater(h, inputs) ==> Decided(Run(h, inputs).pc) == Some(LinkLost)
    ensures Decided(Run(h, inputs).pc) == Some(o) <==>
              if BreaksLater(h, inputs) then o == LinkLost else exists k: nat :: DecidesAt(h, inputs, k, o)
    decreases |inputs|
  {
    if inputs != [] {
      var n := |inputs| - 1;
      var (front, i) := (inputs[..n], inputs[n]);
      OutcomesExactly(h, front, o);
      HostRuns.StepKeepsSpoken(Run(h, front), i);
      LastInput(h, inputs, o);
    }
  }

  lemma LaterBreaks(h: Host, inputs: seq<Input>)
    requires inputs != []
    ensures
      var front := inputs[..|inputs| - 1];
      BreaksLater(h, inputs) <==> BreaksLater(h, front) || BreaksAt(h, inputs, |inputs| - 1)
  {
    var n := |inputs| - 1;
    if k: nat :| BreaksAt(h, inputs[..n], k) { OneInputMore(h, inputs, k, LinkLost); }
    if k: nat :| k < n && BreaksAt(h, inputs, k) { OneInputMore(h, inputs, k, LinkLost); }
  }

  lemma EarlierDecides(h: Host, inputs: seq<Input>, o: Outcome)
    requires inputs != []
    ensures
      var front := inputs[..|inputs| - 1];
      (exists k: nat :: DecidesAt(h, inputs, k, o))
      <==> (exists k: nat :: DecidesAt(h, front, k, o)) || DecidesAt(h, inputs, |inputs| - 1, o)
  {
    var n := |inputs| - 1;
    if k: nat :| DecidesAt(h, inputs[..n], k, o) { OneInputMore(h, inputs, k, o); }
    if k: nat :| k < n && DecidesAt(h, inputs, k, o) { OneInputMore(h, inputs, k, o); }
  }

  lemma LastInput(h: Host, inputs: seq<Input>, o: Outcome)
    requires inputs != [] && NoAgain(inputs)
    requires
      var front := inputs[..|inputs| - 1];
      && HostRuns.Spoken(Run(h, front))
      && (BreaksLater(h, front) ==> Decided(Run(h, front).pc) == Some(LinkLost))
      && (Decided(Run(h, front).pc) == Some(o) <==>
            if BreaksLater(h, front) then o == LinkLost else exists k: nat :: DecidesAt(h, front, k, o))
    ensures BreaksLater(h, inputs) ==> Decided(Run(h, inputs).pc) == Some(LinkLost)
    ensures Decided(Run(h, inputs).pc) == Some(o) <==>
              if BreaksLater(h, inputs) then o == LinkLost else exists k: nat :: DecidesAt(h, inputs, k, o)
  {
    var n := |inputs| - 1;
    var (front, i) := (inputs[..n], inputs[n]);
    var now := Run(h, front);
    LaterBreaks(h, inputs);
    EarlierDecides(h, inputs, o);
    if Decided(now.pc).Some? {
      DecisionsStay(now, i);
    } else if Expects(now, i) {
      StepDecides(now, i, o);
    }
  }

  /** The user is asked until `deadline`. */
  predicate AsksUntil(pc: Pc, deadline: nat) { (pc.Asking? || pc.Listening?) && pc.deadline == deadline }

  /** The `k`-th input is the viewer's hello. */
  ghost predicate GreetsAt(h: Host, inputs: seq<Input>, k: nat) {
    k < |inputs| && Greets(Run(h, inputs[..k]), inputs[k], true)
  }

  /**
   However often the user is asked and the viewer polled in between, the time for the answer ends as long after the
   hello was accepted as the host is configured to wait, and is never moved.
   */
  lemma {:induction false} TheDeadlineStands(h: Host, inputs: seq<Input>, deadline: nat)
    requires Decided(h.pc).None? && !h.pc.Asking? && !h.pc.Listening?
    ensures Run(h, inputs).cfg == h.cfg
    ensures AsksUntil(Run(h, inputs).pc, deadline) ==>
              exists k: nat :: GreetsAt(h, inputs, k) && deadline == inputs[k].at + h.cfg.approval
    decreases |inputs|
  {
    if inputs != [] {
      var n := |inputs| - 1;
      var (front, i) := (inputs[..n], inputs[n]);
      TheDeadlineStands(h, front, deadline);
      if AsksUntil(Run(h, inputs).pc, deadline) {
        AsksOn(Run(h, front), i, deadline);
        if AsksUntil(Run(h, front).pc, deadline) {
          var k: nat :| GreetsAt(h, front, k) && deadline == front[k].at + h.cfg.approval;
          assert inputs[..k] == front[..k];
          assert GreetsAt(h, inputs, k);
        } else {
          assert GreetsAt(h, inputs, n);
        }
      }
    }
  }

  lemma AsksOn(h: Host, i: Input, deadline: nat)
    requires AsksUntil(Step(h, i).pc, deadline)
    ensures AsksUntil(h.pc, deadline) || (Greets(h, i, true) && deadline == i.at + h.cfg.approval)
  {
  }
}
