/**
 The host's side of the first connection as the program runs it: `serve_next` and the functions under it,
 step by step over a signaling link, a clock, a limiter, and a data channel.

 The agent keeps a ghost record of every result it waited for. Its methods are proved to leave it exactly
 where `HostMachine` is after that record, so that everything proved about the machine's runs is true of the
 agent.
 */
module HostAgent {
  import opened Wrappers
  import opened Protocol
  import opened HostMachine
  import opened Channel
  import HostRuns
  import L = Limiter

  const APPROVAL_POLL := 50_000_000

  /** The signaling link: what it will still deliver (then it is closed), and what was sent on it. */
  class HostLink {
    var inbox: seq<LinkRecv<ServerToHost>>
    var sent: seq<HostToServer>
    /** What it has delivered, and for each message that was to be sent whether it was. */
    ghost var delivered: seq<LinkRecv<ServerToHost>>
    ghost var tries: seq<bool>

    constructor (inbox: seq<LinkRecv<ServerToHost>>)
      ensures this.inbox == inbox && sent == [] && delivered == [] && tries == []
    {
      this.inbox, sent, delivered, tries := inbox, [], [], [];
    }

    method Recv(clock: Clock, maxWait: nat) returns (r: LinkRecv<ServerToHost>)
      modifies this`inbox, this`delivered, clock
      ensures clock.now >= old(clock.now) + (if r.Quiet? then maxWait else 0) && delivered == old(delivered) + [r]
      ensures if old(inbox) == [] then r == Broken(true) && inbox == []
              else r == old(inbox)[0] && inbox == old(inbox)[1..]
    {
      clock.Pass();
      r := Broken(true);
      if inbox != [] {
        r := inbox[0];
        inbox := inbox[1..];
      }
      if r.Quiet? { clock.now := clock.now + maxWait; }
      delivered := delivered + [r];
    }

    method Send(m: HostToServer) returns (ok: bool)
      modifies this`sent, this`tries
      ensures sent == (if ok then old(sent) + [m] else old(sent)) && tries == old(tries) + [ok]
    {
      ok := *;
      if ok { sent := sent + [m]; }
      tries := tries + [ok];
    }
  }

  /** The question put to the user, which never blocks: answers to come, and then none any more. */
  class Approver {
    var answers: seq<Option<bool>>
    ghost var given: seq<Option<bool>>

    constructor (answers: seq<Option<bool>>)
      ensures this.answers == answers && given == []
    {
      this.answers, given := answers, [];
    }

    method Ask() returns (a: Option<bool>)
      modifies this
      ensures if old(answers) == [] then a == None && answers == []
              else a == old(answers)[0] && answers == old(answers)[1..]
      ensures given == old(given) + [a]
    {
      a := None;
      if answers != [] {
        a := answers[0];
        answers := answers[1..];
      }
      given := given + [a];
    }
  }

  /**
   What the world outside told the agent: signaling and chance, in all its visits; the user and the data channel,
   in the current one.
   */
  datatype Told = Told(
    heard: seq<LinkRecv<ServerToHost>>, tries: seq<bool>, luck: seq<Luck>, answers: seq<Option<bool>>, dealt: Dealings)

  /** One more result. */
  ghost function OneMore(told: Told, h: Host, i: Input): Told {
    var d := told.dealt;
    match i
    case Heard(r, _, luck) => told.(heard := told.heard + [r], luck := told.luck + [luck])
    case Sent(ok, _, luck) =>
      if h.out != [] && h.out[0].ToServer? then told.(tries := told.tries + [ok], luck := told.luck + [luck])
      else told.(dealt := d.(tries := d.tries + [ok]), luck := told.luck + [luck])
    case OpenIn(how, known, _) => told.(dealt := d.(openings := d.openings + [(how, known)]))
    case ControlIn(n, _) => told.(dealt := d.(read := d.read + [n]))
    case ApprovalIn(answer, _) => told.(answers := told.answers + [answer])
    case Again => told.(answers := [], dealt := NO_DEALINGS)
  }

  /** What was told according to a record. */
  ghost function ToldIn(h: Host, trace: seq<Input>): Told {
    if trace == [] then Told([], [], [], [], NO_DEALINGS)
    else
      var front := trace[..|trace| - 1];
      OneMore(ToldIn(h, front), Run(h, front), trace[|trace| - 1])
  }

  ghost predicate Records(h: Host, trace: seq<Input>, now: Host, told: Told) {
    now == Run(h, trace) && told == ToldIn(h, trace)
  }

  /** The answers of the user that go with an outcome: none but the last decides, and it decides as it says. */
  predicate FitsAnswers(o: Outcome, answers: seq<Option<bool>>) {
    var last := if answers == [] then None else answers[|answers| - 1];
    && Undecided(answers)
    && match o
       case Session(_) => last == Some(true)
       case ViewerGone => answers == []
       case LinkLost => true
       case Failed(f) =>
         match f
         case DeniedByUser => answers != [] && last != Some(true)
         case MalformedMsg => last == None
         case TransportFailure => last != Some(false)
         case _ => answers == []
  }

  /** All but the last are not answers yet. */
  predicate Undecided(answers: seq<Option<bool>>) { forall i :: 0 <= i < |answers| - 1 ==> answers[i] == None }

  /** No outcome that is due to a timeout comes before that time has passed. */
  predicate Waited(cfg: HostConfig, o: Outcome, answers: seq<Option<bool>>, spent: int) {
    && spent >= 0
    && match o
       case Failed(Timeout(stage)) =>
         if stage.ConnectStage? then spent >= cfg.connect
         else (stage.PakeStage? || stage.HelloStage?) && spent >= cfg.signalingStep
       case Failed(DeniedByUser) => answers != [] && answers[|answers| - 1] == None ==> spent >= cfg.approval
       case _ => true
  }

  /** How the user's answers and what was heard between them lead to the end of the wait. */
  predicate EndsWait(a: Approval, answers: seq<Option<bool>>, heard: seq<Next>) {
    && answers != [] && Undecided(answers)
    && var last := answers[|answers| - 1];
    && (a.UserApproved? <==> last == Some(true)) && (a.UserDenied? <==> last == Some(false))
    && (a.NoAnswer? || a.ApprovalFailed? <==> last == None)
    && |heard| == (if a.ApprovalFailed? then |answers| else |answers| - 1)
    && (forall i :: 0 <= i < |answers| - 1 ==> heard[i] == TimedOut)
    && (a.ApprovalFailed? ==>
          var n := heard[|answers| - 1];
          n != TimedOut && a.f == if n.Msg? || n.Malformed? then MalformedMsg else TransportFailure)
  }

  /** Reading went on until the other side closed, or the time was up. */
  predicate Lingered(before: seq<Next>, results: seq<Next>, timeUp: bool) {
    && before <= results && |before| < |results|
    && var n := results[|results| - 1];
    n == Closed || n == NextFailed || (n == TimedOut && timeUp)
  }

  datatype Approval = UserApproved | UserDenied | NoAnswer | ApprovalFailed(f: AttemptFailure)

  class Agent {
    const cfg: HostConfig
    const link: HostLink
    const clock: Clock
    const dice: Dice<Luck>
    const limiter: L.AttemptLimiter
    var code: Code
    /** Where the machine was when the record began, the record, and where the machine is after it. */
    ghost const origin: Host
    ghost var trace: seq<Input>
    ghost var machine: Host
    /** What had been sent before the current viewer. */
    ghost var before: seq<HostToServer>
    /** The user's answers and the dealings with the data channel, for the current viewer. */
    ghost var answers: seq<Option<bool>>
    ghost var dealt: Dealings

    /** The record leads to where the machine is, and holds `told`: whatever else it led to or held is the same. */
    ghost predicate RecordedAs(told: Told)
      reads this
    {
      forall h, t :: Records(origin, trace, h, t) ==> h == machine && t == told
    }

    /** What the agent was told. */
    ghost function WasTold(): Told
      reads this, link, dice
    {
      Told(link.delivered, link.tries, dice.thrown, answers, dealt)
    }

    lemma RecordLeads(told: Told)
      requires RecordedAs(told)
      ensures machine == Run(origin, trace) && told == ToldIn(origin, trace)
    {
      assert Records(origin, trace, Run(origin, trace), ToldIn(origin, trace));
    }

    /** The agent and the machine agree. */
    ghost predicate InSync()
      reads this, link, clock, dice, limiter
    {
      && RecordedAs(WasTold())
      && machine.cfg == cfg && machine.code == code && machine.limiter == limiter.State() && machine.now <= clock.now
      && link.sent == before + machine.said
    }

    /**
     The agent has finished with a viewer. The user's answers fit the outcome, and what is recorded of a data
     channel is what that channel did; without a session the channel is closed, if there is one.
     */
    ghost predicate Served(o: Outcome, ch: ControlChannel?)
      reads this, if ch == null then {} else {ch, ch.peer}
    {
      && machine.pc == Finished(o) && machine.out == [] && FitsAnswers(o, answers)
      && if ch == null then dealt == NO_DEALINGS && !o.Session?
         else ch.Valid() && dealt == ch.Dealt() && ch.localClosed == !o.Session?
    }

    constructor (cfg: HostConfig, link: HostLink, clock: Clock, dice: Dice<Luck>, code: Code)
      requires link.delivered == [] && link.tries == [] && dice.thrown == []
      ensures this.cfg == cfg && this.link == link && this.clock == clock && this.dice == dice && fresh(limiter)
      ensures InSync() && machine == origin == Initial(cfg, code) && trace == []
      ensures answers == [] && dealt == NO_DEALINGS
    {
      this.cfg, this.link, this.clock, this.dice, this.code := cfg, link, clock, dice, code;
      limiter := new L.AttemptLimiter();
      origin, machine, trace, before := Initial(cfg, code), Initial(cfg, code), [], link.sent;
      answers, dealt := [], NO_DEALINGS;
      new;
      assert before + [] == before;
    }

    /** Records one result more than it `told` so far. */
    ghost method Record(i: Input, told: Told)
      requires RecordedAs(told)
      modifies this`trace, this`machine
      ensures RecordedAs(OneMore(told, old(machine), i)) && old(trace) <= trace
      ensures machine == Step(old(machine), i)
    {
      RecordLeads(told);
      trace, machine := trace + [i], Step(machine, i);
      assert trace[..|trace| - 1] == old(trace);
    }

    // What recording each kind of result comes to.

    ghost method RecordHeard(r: LinkRecv<ServerToHost>, luck: Luck, told: Told)
      requires RecordedAs(told) && machine.now <= clock.now && machine.out == []
      requires told.(heard := told.heard + [r], luck := told.luck + [luck]) == WasTold()
      modifies this`trace, this`machine
      ensures RecordedAs(WasTold()) && old(trace) <= trace
      ensures
        var h := old(machine).(now := clock.now);
        match old(machine).pc
        case Idle =>
          machine == if r == Got(ViewerJoined) then Begin(h, clock.now)
                     else if r.Broken? then h.(pc := Finished(LinkLost)) else h
        case AwaitStart => machine == HostMachine.HearStart(h, r, clock.now, luck)
        case AwaitConfirm(t) => machine == HearConfirm(h, t, r, luck)
        case _ => true
    {
      Record(Heard(r, clock.now, luck), told);
    }

    ghost method RecordSent(ok: bool, luck: Luck, told: Told)
      requires RecordedAs(told) && machine.now <= clock.now && machine.out != []
      requires OneMore(told, machine, Sent(ok, clock.now, luck)) == WasTold()
      modifies this`trace, this`machine
      ensures RecordedAs(WasTold()) && old(trace) <= trace
      ensures machine == SendDone(old(machine).(now := clock.now), ok, clock.now, luck)
    {
      Record(Sent(ok, clock.now, luck), told);
    }

    ghost method RecordOpen(how: Opened, known: bool)
      requires RecordedAs(WasTold()) && machine.now <= clock.now && machine.out == [] && machine.pc.AwaitOpen?
      modifies this`trace, this`machine, this`dealt
      ensures RecordedAs(WasTold()) && old(trace) <= trace
      ensures dealt == old(dealt).(openings := old(dealt).openings + [(how, known)])
      ensures machine == Opening(old(machine).(now := clock.now), how, known)
    {
      Record(OpenIn(how, known, clock.now), WasTold());
      dealt := dealt.(openings := dealt.openings + [(how, known)]);
    }

    ghost method RecordControl(n: Next)
      requires RecordedAs(WasTold()) && machine.now <= clock.now && machine.out == []
      modifies this`trace, this`machine, this`dealt
      ensures RecordedAs(WasTold()) && old(trace) <= trace
      ensures dealt == old(dealt).(read := old(dealt).read + [n])
      ensures
        var h := old(machine).(now := clock.now);
        match old(machine).pc
        case AwaitHello(e) => machine == HostMachine.HearHello(h, e, n, clock.now)
        case Listening(e, viewer, deadline) =>
          machine == if n.TimedOut? then h.(pc := Asking(e, viewer, deadline))
                     else if n.Msg? || n.Malformed? then HostMachine.Kicked(h, MalformedMsg)
                     else HostMachine.Kicked(h, TransportFailure)
        case Lingering(f, _) => machine == if n.Msg? || n.Malformed? then h else HostMachine.Kicked(h, f)
        case _ => true
    {
      Record(ControlIn(n, clock.now), WasTold());
      dealt := dealt.(read := dealt.read + [n]);
    }

    ghost method RecordApproval(answer: Option<bool>)
      requires RecordedAs(WasTold()) && machine.now <= clock.now && machine.out == [] && machine.pc.Asking?
      modifies this`trace, this`machine, this`answers
      ensures RecordedAs(WasTold()) && old(trace) <= trace
      ensures answers == old(answers) + [answer]
      ensures machine == HearApproval(old(machine).(now := clock.now), answer, clock.now)
    {
      Record(ApprovalIn(answer, clock.now), WasTold());
      answers := answers + [answer];
    }

    method SendToServer(m: HostToServer) returns (ok: bool)
      requires InSync() && machine.out != [] && machine.out[0] == ToServer(m)
      modifies this`trace, this`machine, link`sent, link`tries, dice
      ensures InSync() && old(trace) <= trace && link.tries == old(link.tries) + [ok]
      ensures var h := old(machine).(now := clock.now);
              machine == if ok then h.(out := h.out[1..], said := h.said + [m])
                           else h.(pc := Finished(LinkLost), out := [])
    {
      ghost var told := WasTold();
      ok := link.Send(m);
      var luck := dice.Throw();
      RecordSent(ok, luck, told);
    }

    /** The next message from the server. */
    method RecvRelay() returns (r: LinkRecv<ServerToHost>, luck: Luck)
      requires InSync() && machine.out == [] && (machine.pc.AwaitStart? || machine.pc.AwaitConfirm?)
      modifies this`trace, this`machine, link`inbox, link`delivered, clock, dice
      ensures clock.now >= old(clock.now) + (if r.Quiet? then cfg.signalingStep else 0)
      ensures link.delivered == old(link.delivered) + [r] && RecordedAs(WasTold()) && old(trace) <= trace
      ensures machine.cfg == cfg && machine.now <= clock.now && machine.said == old(machine).said
      ensures old(machine).pc.AwaitConfirm? ==>
                && machine.code == code
                && (machine.limiter == limiter.State()
                    || (r.Got? && r.msg.RelayToHost? && r.msg.payload.Pake? && r.msg.payload.msg.Confirm?))
      ensures
        var h := old(machine).(now := clock.now);
        match old(machine).pc
        case AwaitStart => machine == HostMachine.HearStart(h, r, clock.now, luck)
        case AwaitConfirm(t) => machine == HearConfirm(h, t, r, luck)
        case _ => true
    {
      ghost var told := WasTold();
      r := link.Recv(clock, cfg.signalingStep);
      luck := dice.Throw();
      RecordHeard(r, luck, told);
    }

    /** The next message from the viewer. */
    method NextFrom(ch: ControlChannel, deadline: nat) returns (n: Next)
      requires InSync() && machine.out == [] && (machine.pc.AwaitHello? || machine.pc.Listening? || machine.pc.Lingering?)
      requires ch.Valid() && ch.peer.clock == clock
      modifies this`trace, this`machine, this`dealt, clock,
               ch`pending, ch`remoteClosed, ch`absorbed, ch`returned, ch`results, ch.peer`arrivals, ch.peer`failures
      ensures InSync() && ch.Valid() && old(trace) <= trace
      ensures dealt == old(dealt).(read := old(dealt).read + [n]) && ch.results == old(ch.results) + [n]
      ensures clock.now >= old(clock.now) && (n == TimedOut ==> clock.now >= deadline)
      ensures ch.Outstanding() == old(ch.Outstanding()) - (if n.Msg? || n.Malformed? then 1 else 0)
      ensures n.Msg? || n.Malformed? ==>
                |ch.returned| == |old(ch.returned)| + 1 && n == Decoded(ch.returned[|old(ch.returned)|])
      ensures
        var h := old(machine).(now := clock.now);
        match old(machine).pc
        case AwaitHello(e) => machine == HostMachine.HearHello(h, e, n, clock.now)
        case Listening(e, viewer, deadline) =>
          machine == if n.TimedOut? then h.(pc := Asking(e, viewer, deadline))
                     else if n.Msg? || n.Malformed? then HostMachine.Kicked(h, MalformedMsg)
                     else HostMachine.Kicked(h, TransportFailure)
        case Lingering(f, _) => machine == if n.Msg? || n.Malformed? then h else HostMachine.Kicked(h, f)
        case _ => true
    {
      var next, _ := ch.NextControl(deadline);
      n := next;
      RecordControl(n);
    }

    /** Sends the viewer away and ends with `f`. */
    method Kicked(f: AttemptFailure) returns (o: Outcome)
      requires InSync() && machine.pc == Finished(Failed(f)) && machine.out == [ToServer(Kick)]
      modifies this`trace, this`machine, link`sent, link`tries, dice
      ensures InSync() && machine.pc == Finished(o) && machine.out == [] && (o == Failed(f) || o == LinkLost)
      ensures old(trace) <= trace
    {
      var ok := SendToServer(Kick);
      return if ok then Failed(f) else LinkLost;
    }

    /** Says `Rejected` on the relay, then sends the viewer away. */
    method RejectRelay(f: AttemptFailure) returns (o: Outcome)
      requires InSync() && machine.pc == Finished(Failed(f))
      requires machine.out == [ToServer(HostRelay(Rejected)), ToServer(Kick)]
      modifies this`trace, this`machine, link`sent, link`tries, dice
      ensures InSync() && machine.pc == Finished(o) && machine.out == [] && (o == Failed(f) || o == LinkLost)
      ensures old(trace) <= trace
    {
      var ok := SendToServer(HostRelay(Rejected));
      if !ok { return LinkLost; }
      assert [ToServer(HostRelay(Rejected)), ToServer(Kick)][1..] == [ToServer(Kick)];
      o := Kicked(f);
    }

    ghost method StartOver()
      requires InSync() && machine.out == [] && machine.pc.Finished? && machine.pc.outcome != LinkLost
      modifies this`trace, this`machine, this`before, this`answers, this`dealt
      ensures InSync() && machine.pc.Idle? && machine.out == [] && old(trace) <= trace && before == link.sent
      ensures answers == [] && dealt == NO_DEALINGS
    {
      Record(Again, WasTold());
      before, answers, dealt := link.sent, [], NO_DEALINGS;
      assert link.sent == before + machine.said;
    }

    /** Waits for a viewer to join and serves it to the end; may be called again unless the link was lost. */
    method ServeNext(approver: Approver) returns (o: Outcome, ch: ControlChannel?)
      requires InSync() && machine.out == []
      requires
        || (machine.pc.Idle? && answers == [] && dealt == NO_DEALINGS)
        || (machine.pc.Finished? && machine.pc.outcome != LinkLost)
      modifies this`trace, this`machine, this`code, this`answers, this`dealt, this`before,
               link, clock, dice, limiter, approver
      ensures InSync() && Served(o, ch) && old(trace) <= trace
      ensures before == if old(machine).pc.Finished? then old(link.sent) else old(before)
      ensures approver.given == old(approver.given) + answers && (ch != null ==> fresh(ch) && fresh(ch.peer))
      ensures Waited(cfg, o, answers, clock.now - old(clock.now))
    {
      if machine.pc.Finished? { StartOver(); }
      var joined;
      ghost var idle;
      joined, idle := AwaitViewer();
      if !joined { return LinkLost, null; }
      o, ch := Attempt(approver, idle);
    }

    /** Passes over everything until a viewer joins; `false` if the link breaks first. */
    method AwaitViewer() returns (joined: bool, ghost idle: Host)
      requires InSync() && machine.pc.Idle? && machine.out == []
      modifies this`trace, this`machine, link`inbox, link`delivered, clock, dice
      ensures InSync() && old(trace) <= trace && clock.now >= old(clock.now) && idle.out == []
      ensures idle.limiter == limiter.State()
      ensures if joined then machine == Begin(idle, clock.now) else machine.pc == Finished(LinkLost) && machine.out == []
    {
      while true
        invariant InSync() && machine.pc.Idle? && machine.out == []
        invariant clock.now >= old(clock.now) && old(trace) <= trace
        decreases |link.inbox|
      {
        ghost var told := WasTold();
        idle := machine;
        var r := link.Recv(clock, cfg.signalingStep);
        var luck := dice.Throw();
        RecordHeard(r, luck, told);
        idle := idle.(now := clock.now);
        if r.Broken? { return false, idle; }
        if r == Got(ViewerJoined) { return true, idle; }
      }
    }

    lemma MachineSpeaks(first: Code)
      requires RecordedAs(WasTold()) && machine.out == [] && origin == Initial(cfg, first)
      ensures machine.pc.Idle? ==> machine.said == []
      ensures machine.pc.Finished? ==> HostRuns.Conversation(machine.pc.outcome, machine.said)
    {
      RecordLeads(WasTold());
      HostRuns.RunKeepsSpoken(cfg, first, trace);
      if machine.pc.Finished? { HostRuns.WhatTheHostSays(cfg, first, trace); }
    }

    /**
     As `ServeNext`, for an agent whose record began at its first viewer: what it sent to signaling for this
     viewer is a conversation that belongs to the outcome.
     */
    method Serve(approver: Approver, ghost first: Code)
      returns (o: Outcome, ch: ControlChannel?, ghost said: seq<HostToServer>)
      requires InSync() && machine.out == [] && origin == Initial(cfg, first)
      requires
        || (machine.pc.Idle? && answers == [] && dealt == NO_DEALINGS)
        || (machine.pc.Finished? && machine.pc.outcome != LinkLost)
      modifies this`trace, this`machine, this`code, this`answers, this`dealt, this`before,
               link, clock, dice, limiter, approver
      ensures InSync() && Served(o, ch) && old(trace) <= trace
      ensures link.sent == old(link.sent) + said && HostRuns.Conversation(o, said)
      ensures approver.given == old(approver.given) + answers && (ch != null ==> fresh(ch) && fresh(ch.peer))
      ensures Waited(cfg, o, answers, clock.now - old(clock.now))
    {
      MachineSpeaks(first);
      o, ch := ServeNext(approver);
      MachineSpeaks(first);
      said := machine.said;
    }

    /** Serves the viewer that joined, unless the limiter is closed. */
    method Attempt(approver: Approver, ghost idle: Host) returns (o: Outcome, ch: ControlChannel?)
      requires answers == [] && dealt == NO_DEALINGS
      requires InSync() && idle.out == [] && idle.limiter == limiter.State() && machine == Begin(idle, clock.now)
      modifies this`trace, this`machine, this`code, this`answers, this`dealt, link, clock, dice, limiter, approver
      ensures InSync() && Served(o, ch) && old(trace) <= trace
      ensures approver.given == old(approver.given) + answers && (ch != null ==> fresh(ch) && fresh(ch.peer))
      ensures Waited(cfg, o, answers, clock.now - old(clock.now))
    {
      ch := null;
      var check := limiter.CheckAt(clock.now);
      if check.Err? {
        var ms := L.WaitMillis(check.error);
        var ok := SendToServer(HostRelay(RetryAfter(ms)));
        if !ok { return LinkLost, null; }
        assert [ToServer(HostRelay(RetryAfter(ms))), ToServer(Kick)][1..] == [ToServer(Kick)];
        o := Kicked(WaitRequired);
        return;
      }
      o, ch := HearStart(approver);
    }

    /** Waits for the viewer's share. */
    method HearStart(approver: Approver) returns (o: Outcome, ch: ControlChannel?)
      requires answers == [] && dealt == NO_DEALINGS
      requires InSync() && machine.pc.AwaitStart? && machine.out == []
      modifies this`trace, this`machine, this`code, this`answers, this`dealt, link, clock, dice, limiter, approver
      ensures InSync() && Served(o, ch) && old(trace) <= trace
      ensures approver.given == old(approver.given) + answers && (ch != null ==> fresh(ch) && fresh(ch.peer))
      ensures Waited(cfg, o, answers, clock.now - old(clock.now))
    {
      ch := null;
      ghost var start := machine;
      var r, luck := RecvRelay();
      match r {
        case Got(RelayToHost(Pake(Start(pa)))) =>
          if pa.NotAPoint? {
            o := RejectRelay(MalformedMsg);
          } else {
            o, ch := Respond(approver, pa, luck, start.(now := clock.now));
          }
        case _ => o := EndWithoutShare(r, luck, start.(now := clock.now));
      }
    }

    /** Something else came than the viewer's share, or nothing. */
    method EndWithoutShare(r: LinkRecv<ServerToHost>, ghost luck: Luck, ghost start: Host) returns (o: Outcome)
      requires InSync() && start.pc.AwaitStart? && start.out == []
      requires !(r.Got? && r.msg.RelayToHost? && r.msg.payload.Pake? && r.msg.payload.msg.Start?)
      requires machine == HostMachine.HearStart(start, r, start.now, luck)
      modifies this`trace, this`machine, link`sent, link`tries, dice
      ensures InSync() && machine.pc == Finished(o) && machine.out == [] && old(trace) <= trace
      ensures o == ViewerGone || o == LinkLost || o == Failed(MalformedMsg) || (o == Failed(Timeout(PakeStage)) && r.Quiet?)
    {
      match r {
        case Got(ViewerLeft) => return ViewerGone;
        case Got(_) => o := RejectRelay(MalformedMsg);
        case Quiet => o := Kicked(Timeout(PakeStage));
        case Broken(_) => return LinkLost;
      }
    }

    /** Answers a `Start`. The record already holds it; the code, the limiter and the link follow here. */
    method Respond(approver: Approver, pa: Share, luck: Luck, ghost start: Host) returns (o: Outcome, ch: ControlChannel?)
      requires answers == [] && dealt == NO_DEALINGS
      requires RecordedAs(WasTold())
      requires machine.cfg == cfg && machine.now <= clock.now && link.sent == before + machine.said
      requires start.cfg == cfg && start.code == code && start.limiter == limiter.State() && start.out == []
      requires machine == HostMachine.Respond(start, pa, clock.now, luck)
      modifies this`trace, this`machine, this`code, this`answers, this`dealt, link, clock, dice, limiter, approver
      ensures InSync() && Served(o, ch) && old(trace) <= trace
      ensures approver.given == old(approver.given) + answers && (ch != null ==> fresh(ch) && fresh(ch.peer))
      ensures Waited(cfg, o, answers, clock.now - old(clock.now))
    {
      var t := Transcript(code, cfg.hostId, pa, luck.pb);
      // Recorded as a failure before the reply is sent: a viewer with a wrong code can tell from the
      // reply, and leave without ever sending its MAC.
      var rotate := limiter.RecordFailure(clock.now);
      if rotate { code := luck.code; }
      var ok := SendToServer(HostRelay(Reply(luck.pb, MacB(t))));
      if !ok { return LinkLost, null; }
      o, ch := HearMac(approver, t);
    }

    /** Waits for the viewer's MAC. */
    method HearMac(approver: Approver, t: Transcript) returns (o: Outcome, ch: ControlChannel?)
      requires answers == [] && dealt == NO_DEALINGS
      requires InSync() && machine.pc == AwaitConfirm(t) && machine.out == []
      modifies this`trace, this`machine, this`code, this`answers, this`dealt, link, clock, dice, limiter, approver
      ensures InSync() && Served(o, ch) && old(trace) <= trace
      ensures approver.given == old(approver.given) + answers && (ch != null ==> fresh(ch) && fresh(ch.peer))
      ensures Waited(cfg, o, answers, clock.now - old(clock.now))
    {
      ch := null;
      var r, luck;
      ghost var waiting;
      r, luck, waiting := RecvConfirm(t);
      match r {
        case Got(RelayToHost(Pake(Confirm(macA, sealedOffer)))) =>
          o, ch := CheckMac(approver, t, macA, sealedOffer, luck, waiting);
        case _ => o := EndWithoutMac(t, r, luck, waiting);
      }
    }

    method RecvConfirm(t: Transcript) returns (r: LinkRecv<ServerToHost>, luck: Luck, ghost waiting: Host)
      requires InSync() && machine.pc == AwaitConfirm(t) && machine.out == []
      modifies this`trace, this`machine, link`inbox, link`delivered, clock, dice
      ensures old(trace) <= trace && clock.now >= old(clock.now) && RecordedAs(WasTold())
      ensures waiting.pc == AwaitConfirm(t) && waiting.out == [] && waiting.now <= clock.now
      ensures waiting.limiter == limiter.State() && machine == HearConfirm(waiting, t, r, luck)
      ensures machine.cfg == cfg && machine.code == code && machine.now <= clock.now && link.sent == before + machine.said
      ensures
        || machine.limiter == limiter.State()
        || (r.Got? && r.msg.RelayToHost? && r.msg.payload.Pake? && r.msg.payload.msg.Confirm?)
    {
      waiting := machine;
      r, luck := RecvRelay();
      waiting := waiting.(now := clock.now);
    }

    /** Checks the viewer's MAC. The record already holds its message; the limiter follows here. */
    method CheckMac(approver: Approver, t: Transcript, macA: Mac, sealedOffer: Sealed, luck: Luck, ghost waiting: Host)
      returns (o: Outcome, ch: ControlChannel?)
      requires answers == [] && dealt == NO_DEALINGS && RecordedAs(WasTold())
      requires machine.cfg == cfg && machine.code == code && machine.now <= clock.now
      requires link.sent == before + machine.said
      requires waiting.pc == AwaitConfirm(t) && waiting.out == [] && waiting.now <= clock.now
      requires waiting.limiter == limiter.State()
      requires machine == HearConfirm(waiting, t, Got(RelayToHost(Pake(Confirm(macA, sealedOffer)))), luck)
      modifies this`trace, this`machine, this`code, this`answers, this`dealt, link, clock, dice, limiter, approver
      ensures InSync() && Served(o, ch) && old(trace) <= trace
      ensures approver.given == old(approver.given) + answers && (ch != null ==> fresh(ch) && fresh(ch.peer))
      ensures Waited(cfg, o, answers, clock.now - old(clock.now))
    {
      if macA != MacA(t) {
        o := RejectRelay(WrongCode);
        ch := null;
        return;
      }
      limiter.RecordSuccess();
      o, ch := Connect(approver, t, sealedOffer, luck, waiting);
    }

    /** Something else came than the viewer's MAC, or nothing. */
    method EndWithoutMac(t: Transcript, r: LinkRecv<ServerToHost>, ghost luck: Luck, ghost waiting: Host)
      returns (o: Outcome)
      requires InSync() && waiting.pc == AwaitConfirm(t) && waiting.out == []
      requires !(r.Got? && r.msg.RelayToHost? && r.msg.payload.Pake? && r.msg.payload.msg.Confirm?)
      requires machine == HearConfirm(waiting, t, r, luck)
      modifies this`trace, this`machine, link`sent, link`tries, dice
      ensures InSync() && machine.pc == Finished(o) && machine.out == [] && old(trace) <= trace
      ensures o == Failed(NoConfirm) || o == Failed(MalformedMsg) || o == LinkLost
    {
      match r {
        // A viewer that already left is not kicked: the next one would be, in its place.
        case Got(ViewerLeft) => return Failed(NoConfirm);
        case Got(_) => o := RejectRelay(MalformedMsg);
        case Quiet => o := Kicked(NoConfirm);
        case Broken(_) => return LinkLost;
      }
    }

    /** The MAC was right: opens the offer, answers it, and goes on over the data channel. */
    method Connect(approver: Approver, t: Transcript, sealedOffer: Sealed, luck: Luck, ghost waiting: Host)
      returns (o: Outcome, ch: ControlChannel?)
      requires answers == [] && dealt == NO_DEALINGS
      requires InSync() && waiting.pc == AwaitConfirm(t) && waiting.out == []
      requires machine == HearConfirm(waiting, t, Got(RelayToHost(Pake(Confirm(MacA(t), sealedOffer)))), luck)
      modifies this`trace, this`machine, this`code, this`answers, this`dealt, link`sent, link`tries, clock, dice, approver
      ensures InSync() && Served(o, ch) && old(trace) <= trace
      ensures approver.given == old(approver.given) + answers && (ch != null ==> fresh(ch) && fresh(ch.peer))
      ensures Waited(cfg, o, answers, clock.now - old(clock.now))
    {
      ch := null;
      if !sealedOffer.Sealed? || sealedOffer != Sealed(t, ViewerToHost, 0, sealedOffer.body) || sealedOffer.body.NotUtf8? {
        o := RejectRelay(MalformedMsg);
        return;
      }
      if luck.peerMade {
        ch := NewChannel();
        o := AcceptOffer(ch, t, sealedOffer.body, luck.local, approver);
      } else {
        o := Kicked(TransportFailure);
      }
    }

    /** A description that is none is refused like an offer that does not open. */
    method AcceptOffer(ch: ControlChannel, t: Transcript, offer: Sdp, local: Fingerprint, approver: Approver)
      returns (o: Outcome)
      requires answers == [] && dealt == ch.Dealt() && ch.Valid() && !ch.localClosed && ch.peer.clock == clock
      requires InSync() && !offer.NotUtf8?
      requires if offer.BadSdp? then
                 && machine.pc == Finished(Failed(MalformedMsg))
                 && machine.out == [ToServer(HostRelay(Rejected)), ToServer(Kick)]
               else
                 && machine.pc == AwaitOpen(Ends(t, local, offer.fp))
                 && machine.out == [ToServer(HostRelay(Answer(Sealed(t, HostToViewer, 0, Sdp(local)))))]
      modifies this`trace, this`machine, this`code, this`answers, this`dealt, link`sent, link`tries, clock, dice, approver,
               ch, ch.peer
      ensures InSync() && Served(o, ch) && old(trace) <= trace
      ensures approver.given == old(approver.given) + answers
      ensures Waited(cfg, o, answers, clock.now - old(clock.now))
    {
      if offer.BadSdp? {
        o := RejectRelay(MalformedMsg);
        ch.Close();
      } else {
        o := AnswerOffer(ch, Ends(t, local, offer.fp), approver);
      }
    }

    method NewChannel() returns (ch: ControlChannel)
      ensures fresh(ch) && fresh(ch.peer) && ch.Valid() && !ch.localClosed && ch.peer.clock == clock
      ensures ch.Dealt() == NO_DEALINGS
    {
      var peer := new Peer(clock);
      ch := new ControlChannel(peer);
    }

    /** Sends the answer and goes on over the data channel. */
    method AnswerOffer(ch: ControlChannel, e: Ends, approver: Approver) returns (o: Outcome)
      requires answers == [] && dealt == ch.Dealt() && ch.Valid() && !ch.localClosed && ch.peer.clock == clock
      requires InSync() && machine.pc == AwaitOpen(e)
      requires machine.out == [ToServer(HostRelay(Answer(Sealed(e.t, HostToViewer, 0, Sdp(e.local)))))]
      modifies this`trace, this`machine, this`code, this`answers, this`dealt, link`sent, link`tries, clock, dice, approver,
               ch, ch.peer
      ensures InSync() && Served(o, ch) && old(trace) <= trace
      ensures approver.given == old(approver.given) + answers
      ensures Waited(cfg, o, answers, clock.now - old(clock.now))
    {
      var ok := SendToServer(HostRelay(Answer(Sealed(e.t, HostToViewer, 0, Sdp(e.local)))));
      if !ok {
        ch.Close();
        return LinkLost;
      }
      o := Handshake(ch, e, approver);
      if o.Failed? { o := Kicked(o.failure); }
    }

    /** Sends a control message. */
    method SendToPeer(ch: ControlChannel, c: Control) returns (ok: bool, luck: Luck)
      requires InSync() && ch.Valid() && ch.peer.clock == clock && dealt == ch.Dealt() && machine.out == [ToPeer(c)]
      modifies this`trace, this`machine, this`dealt, clock, dice, ch.peer`sent, ch.peer`tries, ch.peer`triedAt
      ensures ch.Valid() && ch.peer.sent == if ok then old(ch.peer.sent) + [c] else old(ch.peer.sent)
      ensures clock.now >= old(clock.now)
      ensures machine == SendDone(old(machine).(now := clock.now), ok, clock.now, luck)
      ensures RecordedAs(WasTold()) && old(trace) <= trace && ch.peer.tries == old(ch.peer.tries) + [ok]
      ensures dealt == old(dealt).(tries := old(dealt).tries + [ok]) && dealt == ch.Dealt()
    {
      ghost var told := WasTold();
      ok := ch.SendControl(c);
      clock.Pass();
      luck := dice.Throw();
      dealt := dealt.(tries := dealt.tries + [ok]);
      RecordSent(ok, luck, told);
    }

    /** The channel has served: it stays as it was for a session, and is closed before the viewer is sent away. */
    ghost predicate Shaken(o: Outcome, ch: ControlChannel, wasClosed: bool)
      reads this, ch, ch.peer
    {
      && machine.pc == Finished(o) && ch.Valid() && dealt == ch.Dealt()
      && match o
         case Session(_) => machine.out == [] && ch.localClosed == wasClosed
         case Failed(_) => machine.out == [ToServer(Kick)] && ch.localClosed
         case _ => false
    }

    /**
     Over the data channel: hellos, approval, decision. The channel stays open only for a session; after a
     failure the caller still has to send the viewer away.
     */
    method Handshake(ch: ControlChannel, e: Ends, approver: Approver) returns (o: Outcome)
      requires InSync() && machine.pc == AwaitOpen(e) && machine.out == []
      requires ch.Valid() && ch.peer.clock == clock && answers == [] && dealt == ch.Dealt()
      modifies this`trace, this`machine, this`code, this`answers, this`dealt, clock, dice, approver, ch, ch.peer
      ensures InSync() && Shaken(o, ch, old(ch.localClosed)) && old(trace) <= trace
      ensures FitsAnswers(o, answers) && approver.given == old(approver.given) + answers
      ensures Waited(cfg, o, answers, clock.now - old(clock.now))
    {
      var how, known := AwaitChannel(ch);
      if how != Ready || !known {
        ch.Close();
        return Failed(match how
                      case Ready => BadViewerIdentity
                      case OpenTimedOut => Timeout(ConnectStage)
                      case _ => TransportFailure);
      }
      o := ExchangeHellos(ch, e, approver);
    }

    /** Waits until the channel is open, and looks whether the other side's fingerprint is known. */
    method AwaitChannel(ch: ControlChannel) returns (how: Opened, known: bool)
      requires InSync() && machine.pc.AwaitOpen? && machine.out == []
      requires ch.Valid() && ch.peer.clock == clock && dealt == ch.Dealt()
      modifies this`trace, this`machine, this`dealt, clock, ch, ch.peer
      ensures InSync() && old(trace) <= trace && ch.Valid() && dealt == ch.Dealt()
      ensures ch.localClosed == old(ch.localClosed) && known == ch.peer.remoteKnown
      ensures dealt == old(dealt).(openings := old(dealt).openings + [(how, known)])
      ensures machine == Opening(old(machine).(now := clock.now), how, known)
      ensures clock.now >= old(clock.now) + if how == OpenTimedOut then cfg.connect else 0
    {
      var start := clock.Read();
      var opening, _ := ch.WaitOpen(start + cfg.connect);
      how, known := opening, ch.peer.remoteKnown;
      RecordOpen(how, known);
    }

    method ExchangeHellos(ch: ControlChannel, e: Ends, approver: Approver) returns (o: Outcome)
      requires InSync() && machine.pc == AwaitHello(e)
      requires machine.out == [ToPeer(HelloMsg(MakeHello(cfg.device, HostRole, e.t, e.local, e.remote)))]
      requires ch.Valid() && ch.peer.clock == clock && answers == [] && dealt == ch.Dealt()
      modifies this`trace, this`machine, this`code, this`answers, this`dealt, clock, dice, approver, ch, ch.peer
      ensures InSync() && Shaken(o, ch, old(ch.localClosed)) && old(trace) <= trace
      ensures FitsAnswers(o, answers) && approver.given == old(approver.given) + answers
      ensures Waited(cfg, o, answers, clock.now - old(clock.now))
    {
      var ok := SendHello(ch, e);
      if !ok {
        ch.Close();
        return Failed(TransportFailure);
      }
      o := GreetBack(ch, e, approver);
    }

    method GreetBack(ch: ControlChannel, e: Ends, approver: Approver) returns (o: Outcome)
      requires InSync() && machine.pc == AwaitHello(e) && machine.out == []
      requires ch.Valid() && ch.peer.clock == clock && answers == [] && dealt == ch.Dealt()
      modifies this`trace, this`machine, this`code, this`answers, this`dealt, clock, dice, approver, ch, ch.peer
      ensures InSync() && Shaken(o, ch, old(ch.localClosed)) && old(trace) <= trace
      ensures FitsAnswers(o, answers) && approver.given == old(approver.given) + answers
      ensures Waited(cfg, o, answers, clock.now - old(clock.now))
    {
      var hello;
      ghost var waiting;
      hello, waiting := HearHello(ch, e);
      if hello.Err? {
        ch.Close();
        return Failed(hello.error);
      }
      o := CheckHello(ch, e, hello.value, approver, waiting);
    }

    method SendHello(ch: ControlChannel, e: Ends) returns (ok: bool)
      requires InSync() && machine.pc == AwaitHello(e) && ch.Valid() && ch.peer.clock == clock && dealt == ch.Dealt()
      requires machine.out == [ToPeer(HelloMsg(MakeHello(cfg.device, HostRole, e.t, e.local, e.remote)))]
      modifies this`trace, this`machine, this`dealt, clock, dice, ch.peer`sent, ch.peer`tries, ch.peer`triedAt
      ensures InSync() && old(trace) <= trace && ch.Valid() && dealt == ch.Dealt() && clock.now >= old(clock.now)
      ensures if ok then machine == old(machine).(now := clock.now, out := [])
              else machine.pc == Finished(Failed(TransportFailure)) && machine.out == [ToServer(Kick)]
    {
      var sent, _ := SendToPeer(ch, HelloMsg(MakeHello(cfg.device, HostRole, e.t, e.local, e.remote)));
      ok := sent;
    }

    /** Waits for the viewer's hello. */
    method HearHello(ch: ControlChannel, e: Ends) returns (hello: Result<Hello, AttemptFailure>, ghost waiting: Host)
      requires InSync() && machine.pc == AwaitHello(e) && machine.out == []
      requires ch.Valid() && ch.peer.clock == clock && dealt == ch.Dealt()
      modifies this`trace, this`machine, this`dealt, clock, ch, ch.peer
      ensures InSync() && old(trace) <= trace && ch.Valid() && dealt == ch.Dealt() && ch.localClosed == old(ch.localClosed)
      ensures waiting == old(machine).(now := clock.now) && clock.now >= old(clock.now)
      ensures match hello
              case Ok(h) => machine == HostMachine.HearHello(waiting, e, Msg(HelloMsg(h)), clock.now)
              case Err(f) =>
                && machine.pc == Finished(Failed(f)) && machine.out == [ToServer(Kick)]
                && (f == MalformedMsg || f == TransportFailure
                    || (f == Timeout(HelloStage) && clock.now >= old(clock.now) + cfg.signalingStep))
    {
      waiting := machine;
      var n := NextFrom(ch, clock.now + cfg.signalingStep);
      waiting := waiting.(now := clock.now);
      match n {
        case Msg(HelloMsg(h)) => hello := Ok(h);
        case TimedOut => hello := Err(Timeout(HelloStage));
        case Closed => hello := Err(TransportFailure);
        case NextFailed => hello := Err(TransportFailure);
        case _ => hello := Err(MalformedMsg);
      }
    }

    /** Decides whether the viewer is who it says, and speaks the same version, before the user is asked. */
    method CheckHello(ch: ControlChannel, e: Ends, hello: Hello, approver: Approver, ghost waiting: Host)
      returns (o: Outcome)
      requires InSync() && waiting.cfg == cfg && waiting.out == []
      requires machine == HostMachine.HearHello(waiting, e, Msg(HelloMsg(hello)), clock.now)
      requires ch.Valid() && ch.peer.clock == clock && answers == [] && dealt == ch.Dealt()
      modifies this`trace, this`machine, this`code, this`answers, this`dealt, clock, dice, approver, ch, ch.peer
      ensures InSync() && Shaken(o, ch, old(ch.localClosed)) && old(trace) <= trace
      ensures FitsAnswers(o, answers) && approver.given == old(approver.given) + answers
      ensures Waited(cfg, o, answers, clock.now - old(clock.now))
    {
      var viewer := VerifyHello(hello, ViewerRole, e.t, e.remote, e.local);
      if viewer.None? {
        o := RejectDecision(ch, e, BadIdentity, BadViewerIdentity);
      } else if hello.version != cfg.device.version {
        o := RejectDecision(ch, e, VersionMismatch(cfg.device.version), WrongVersion);
      } else {
        o := Decide(ch, e, viewer.value, approver, clock.now + cfg.approval);
      }
    }

    /** Asks the user, and tells the viewer. */
    method Decide(ch: ControlChannel, e: Ends, viewer: PeerIdentity, approver: Approver, deadline: nat)
      returns (o: Outcome)
      requires InSync() && machine.pc == Asking(e, viewer, deadline) && machine.out == []
      requires deadline == clock.now + cfg.approval
      requires ch.Valid() && ch.peer.clock == clock && answers == [] && dealt == ch.Dealt()
      modifies this`trace, this`machine, this`code, this`answers, this`dealt, clock, dice, approver, ch, ch.peer
      ensures InSync() && Shaken(o, ch, old(ch.localClosed)) && old(trace) <= trace
      ensures FitsAnswers(o, answers) && approver.given == old(approver.given) + answers
      ensures Waited(cfg, o, answers, clock.now - old(clock.now))
    {
      var a, _ := WaitApproval(ch, e, viewer, approver, deadline);
      o := Conclude(ch, e, viewer, a);
    }

    /** Tells the viewer what came of the question. */
    method Conclude(ch: ControlChannel, e: Ends, viewer: PeerIdentity, a: Approval) returns (o: Outcome)
      requires InSync() && AfterWait(a, e, viewer) && (a.ApprovalFailed? ==> a.f == MalformedMsg || a.f == TransportFailure)
      requires ch.Valid() && ch.peer.clock == clock && dealt == ch.Dealt()
      modifies this`trace, this`machine, this`dealt, this`code, clock, dice, ch, ch.peer
      ensures InSync() && Shaken(o, ch, old(ch.localClosed)) && old(trace) <= trace && clock.now >= old(clock.now)
      ensures match a
              case UserApproved => o.Session? || o == Failed(TransportFailure)
              case ApprovalFailed(f) => o == Failed(f)
              case _ => o == Failed(DeniedByUser)
    {
      match a {
        case UserDenied => o := RejectDecision(ch, e, Denied, DeniedByUser);
        case NoAnswer => o := RejectDecision(ch, e, NoResponse, DeniedByUser);
        case ApprovalFailed(f) =>
          ch.Close();
          o := Failed(f);
        case UserApproved => o := Grant(ch, e, viewer);
      }
    }

    /** Tells the viewer that it is accepted; with the session, the code is used up. */
    method Grant(ch: ControlChannel, e: Ends, viewer: PeerIdentity) returns (o: Outcome)
      requires InSync() && machine.pc == Granting(e, viewer) && machine.out == [ToPeer(DecisionMsg(Accepted))]
      requires ch.Valid() && ch.peer.clock == clock && dealt == ch.Dealt()
      modifies this`trace, this`machine, this`dealt, this`code, clock, dice, ch, ch.peer
      ensures InSync() && Shaken(o, ch, old(ch.localClosed)) && old(trace) <= trace
      ensures (o.Session? || o == Failed(TransportFailure)) && clock.now >= old(clock.now)
    {
      var ok, luck := SendToPeer(ch, DecisionMsg(Accepted));
      if !ok {
        ch.Close();
        return Failed(TransportFailure);
      }
      code := luck.code;
      o := Session(viewer);
    }

    /** Where the end of the wait leaves the machine. */
    ghost predicate AfterWait(a: Approval, e: Ends, viewer: PeerIdentity)
      reads this
    {
      match a
      case UserApproved => machine.pc == Granting(e, viewer) && machine.out == [ToPeer(DecisionMsg(Accepted))]
      case UserDenied =>
        machine.pc == Refusing(e, DeniedByUser) && machine.out == [ToPeer(DecisionMsg(Refused(Denied)))]
      case NoAnswer =>
        machine.pc == Refusing(e, DeniedByUser) && machine.out == [ToPeer(DecisionMsg(Refused(NoResponse)))]
      case ApprovalFailed(f) => machine.pc == Finished(Failed(f)) && machine.out == [ToServer(Kick)]
    }

    /** Asks the user, without waiting; `None` while there is neither an answer nor an end of the time. */
    method AskUser(approver: Approver, e: Ends, viewer: PeerIdentity, deadline: nat)
      returns (a: Option<Approval>, ghost answer: Option<bool>)
      requires InSync() && machine.pc == Asking(e, viewer, deadline) && machine.out == []
      modifies this`trace, this`machine, this`answers, clock, approver
      ensures InSync() && old(trace) <= trace && clock.now >= old(clock.now)
      ensures approver.given == old(approver.given) + [answer] && answers == old(answers) + [answer]
      ensures match answer
              case Some(yes) => a == Some(if yes then UserApproved else UserDenied)
              case None => a == (if clock.now >= deadline then Some(NoAnswer) else None)
      ensures if a.Some? then AfterWait(a.value, e, viewer)
              else machine.pc == Listening(e, viewer, deadline) && machine.out == []
    {
      var said := approver.Ask();
      answer := said;
      clock.Pass();
      RecordApproval(said);
      match said {
        case Some(yes) => a := Some(if yes then UserApproved else UserDenied);
        case None => a := if clock.now >= deadline then Some(NoAnswer) else None;
      }
    }

    /** Polls the peer and the user in turns, until an answer, the deadline, or a breach of the rules. */
    method WaitApproval(ch: ControlChannel, e: Ends, viewer: PeerIdentity, approver: Approver, deadline: nat)
      returns (a: Approval, ghost heard: seq<Next>)
      requires InSync() && machine.pc == Asking(e, viewer, deadline) && machine.out == []
      requires ch.Valid() && ch.peer.clock == clock && answers == [] && dealt == ch.Dealt()
      modifies this`trace, this`machine, this`answers, this`dealt, clock, dice, approver, ch, ch.peer
      ensures InSync() && ch.Valid() && old(trace) <= trace
      ensures AfterWait(a, e, viewer)
      ensures approver.given == old(approver.given) + answers && EndsWait(a, answers, heard)
      ensures dealt == ch.Dealt() && dealt == old(dealt).(read := old(dealt).read + heard)
      ensures ch.localClosed == old(ch.localClosed)
      ensures clock.now >= if a.NoAnswer? then deadline else old(clock.now)
    {
      heard := [];
      while true
        invariant InSync() && machine.pc == Asking(e, viewer, deadline) && machine.out == []
        invariant ch.Valid() && old(trace) <= trace && ch.localClosed == old(ch.localClosed)
        invariant clock.now >= old(clock.now)
        invariant approver.given == old(approver.given) + answers && |heard| == |answers|
        invariant forall i :: 0 <= i < |answers| ==> answers[i] == None && heard[i] == TimedOut
        invariant dealt == ch.Dealt() && dealt == old(dealt).(read := old(dealt).read + heard)
        decreases if clock.now < deadline then deadline - clock.now else 0
      {
        var decided;
        ghost var answer;
        decided, answer := AskUser(approver, e, viewer, deadline);
        if decided.Some? { return decided.value, heard; }
        var failure;
        ghost var n;
        ghost var was := dealt;
        failure, n := Listen(ch, e, viewer, deadline);
        assert was.read + [n] == old(dealt).read + (heard + [n]);
        heard := heard + [n];
        if failure.Some? { return ApprovalFailed(failure.value), heard; }
      }
    }

    /** Polls the peer until it is time to ask again. The viewer has nothing to say meanwhile. */
    method Listen(ch: ControlChannel, e: Ends, viewer: PeerIdentity, deadline: nat)
      returns (failure: Option<AttemptFailure>, ghost n: Next)
      requires InSync() && machine.pc == Listening(e, viewer, deadline) && machine.out == []
      requires ch.Valid() && ch.peer.clock == clock && dealt == ch.Dealt()
      modifies this`trace, this`machine, this`dealt, clock, ch, ch.peer
      ensures InSync() && ch.Valid() && old(trace) <= trace && dealt == ch.Dealt()
      ensures ch.localClosed == old(ch.localClosed) && clock.now >= old(clock.now)
      ensures dealt == old(dealt).(read := old(dealt).read + [n])
      ensures match failure
              case None =>
                && n == TimedOut && clock.now >= L.Min(old(clock.now) + APPROVAL_POLL, deadline)
                && machine.pc == Asking(e, viewer, deadline) && machine.out == []
              case Some(f) =>
                && n != TimedOut && f == (if n.Msg? || n.Malformed? then MalformedMsg else TransportFailure)
                && machine.pc == Finished(Failed(f)) && machine.out == [ToServer(Kick)]
    {
      var next := NextFrom(ch, L.Min(clock.now + APPROVAL_POLL, deadline));
      n := next;
      match next {
        case TimedOut => failure := None;
        case Msg(_) => failure := Some(MalformedMsg);
        case Malformed => failure := Some(MalformedMsg);
        case Closed => failure := Some(TransportFailure);
        case NextFailed => failure := Some(TransportFailure);
      }
    }

    /** Tells the viewer it is refused, and keeps polling until it has closed or some time has passed. */
    method RejectDecision(ch: ControlChannel, e: Ends, reason: RejectReason, f: AttemptFailure) returns (o: Outcome)
      requires InSync() && machine.pc == Refusing(e, f) && machine.out == [ToPeer(DecisionMsg(Refused(reason)))]
      requires ch.Valid() && ch.peer.clock == clock && dealt == ch.Dealt()
      modifies this`trace, this`machine, this`dealt, clock, dice, ch, ch.peer
      ensures InSync() && o == Failed(f) && machine.pc == Finished(o) && machine.out == [ToServer(Kick)]
      ensures ch.Valid() && ch.localClosed && old(trace) <= trace && dealt == ch.Dealt()
      ensures ch.peer.tries == old(ch.peer.tries) + [ch.peer.sent != old(ch.peer.sent)] && clock.now >= old(clock.now)
      ensures ch.peer.sent != old(ch.peer.sent) ==>
                && ch.peer.sent == old(ch.peer.sent) + [DecisionMsg(Refused(reason))]
                && Lingered(old(ch.results), ch.results, clock.now >= old(clock.now) + cfg.signalingStep)
    {
      var ok := SendRefusal(ch, e, reason, f);
      if ok { Linger(ch, f, clock.now + cfg.signalingStep); }
      ch.Close();
      o := Failed(f);
    }

    method SendRefusal(ch: ControlChannel, e: Ends, reason: RejectReason, f: AttemptFailure) returns (ok: bool)
      requires InSync() && machine.pc == Refusing(e, f) && machine.out == [ToPeer(DecisionMsg(Refused(reason)))]
      requires ch.Valid() && ch.peer.clock == clock && dealt == ch.Dealt()
      modifies this`trace, this`machine, this`dealt, clock, dice, ch.peer`sent, ch.peer`tries, ch.peer`triedAt
      ensures InSync() && old(trace) <= trace && ch.Valid() && dealt == ch.Dealt() && clock.now >= old(clock.now)
      ensures ch.peer.sent == if ok then old(ch.peer.sent) + [DecisionMsg(Refused(reason))] else old(ch.peer.sent)
      ensures ch.peer.tries == old(ch.peer.tries) + [ok]
      ensures if ok then machine.pc == Lingering(f, clock.now + cfg.signalingStep) && machine.out == []
              else machine.pc == Finished(Failed(f)) && machine.out == [ToServer(Kick)]
    {
      var sent, _ := SendToPeer(ch, DecisionMsg(Refused(reason)));
      ok := sent;
    }

    /** Reads on until the viewer has closed or time is up. */
    method Linger(ch: ControlChannel, f: AttemptFailure, deadline: nat)
      requires InSync() && machine.pc == Lingering(f, deadline) && machine.out == []
      requires ch.Valid() && ch.peer.clock == clock && dealt == ch.Dealt()
      modifies this`trace, this`machine, this`dealt, clock, ch, ch.peer
      ensures InSync() && machine.pc == Finished(Failed(f)) && machine.out == [ToServer(Kick)]
      ensures ch.Valid() && old(trace) <= trace && dealt == ch.Dealt() && ch.localClosed == old(ch.localClosed)
      ensures ch.peer.sent == old(ch.peer.sent) && ch.peer.tries == old(ch.peer.tries) && clock.now >= old(clock.now)
      ensures Lingered(old(ch.results), ch.results, clock.now >= deadline)
    {
      while true
        invariant InSync() && ch.Valid() && old(trace) <= trace && dealt == ch.Dealt()
        invariant machine.pc == Lingering(f, deadline) && machine.out == []
        invariant ch.localClosed == old(ch.localClosed) && old(ch.results) <= ch.results
        invariant ch.peer.sent == old(ch.peer.sent) && ch.peer.tries == old(ch.peer.tries)
        invariant clock.now >= old(clock.now)
        decreases ch.Outstanding()
      {
        var n := NextFrom(ch, deadline);
        if !n.Msg? && !n.Malformed? { return; }
      }
    }
  }
}
