/**
 One host and one viewer on the in-memory hub that do not have the same code, or not the same host ID, in every
 interleaving in which nothing times out, up to and including the viewer's leaving.

 Every interleaving ends with the viewer told that its code is wrong, before it has offered anything, and with
 the host knowing that a viewer tried and left: it counts one failure and kicks nobody, so that the next viewer
 finds the slot free.
 */
module WrongCodePair {
  import opened Wrappers
  import opened Protocol
  import opened HostMachine
  import opened ViewerMachine
  import opened FakeHub
  import opened HonestPair
  import L = Limiter

  /** A step of one side, or the viewer, done, letting go of its link. */
  datatype Move = Acts(a: Act) | Leaves

  predicate Possible(p: Pair, m: Move)
    requires OnHub(p)
  {
    match m
    case Acts(a) => Prompt(p, a)
    case Leaves => p.viewer.pc.Done? && p.hub.current == Some(p.g)
  }

  function Moved(p: Pair, m: Move): Pair
    requires OnHub(p) && Possible(p, m)
  {
    match m
    case Acts(a) => PStep(p, a)
    case Leaves => p.(hub := ViewerDrop(p.hub, p.g))
  }

  /** What the host had when the viewer joined: its code, what it had said, and its failures in a row. */
  datatype Before = Before(code: Code, said: seq<HostToServer>, failures: nat)

  function HostTranscript(k: Plan, b: Before): Transcript { Transcript(b.code, k.host.hostId, k.pa, k.pb) }

  predicate Disagree(k: Plan, b: Before) {
    (b.code != k.viewer.code || k.host.hostId != k.viewer.hostId) && k.pa.Share? && k.pb.Share?
  }

  /** The reply carries the MAC of the host's transcript, which is not the viewer's. */
  function TheReply(k: Plan, b: Before): PakeMsg { Reply(k.pb, MacB(HostTranscript(k, b))) }

  function HostAt(h: Host): nat {
    match h.pc
    case Idle => 0
    case AwaitStart => 1
    case AwaitConfirm(_) => if h.out != [] then 2 else 3
    case _ => 4
  }

  function ViewerAt(p: Pair): nat {
    match p.viewer.pc
    case AwaitJoined => 0
    case AwaitReply(_) => if p.viewer.out != [] then 1 else 2
    case _ => if p.hub.current == Some(p.g) then 3 else 4
  }

  predicate HostHolds(p: Pair, b: Before) {
    var h := p.host;
    && (match h.pc
        case Idle => h.out == [] && h.code == b.code && L.Check(h.limiter, h.now).Ok?
        case AwaitStart => h.out == [] && h.code == b.code
        case AwaitConfirm(t) =>
          t == HostTranscript(p.plan, b) && (h.out == [] || h.out == [ToServer(HostRelay(TheReply(p.plan, b)))])
        case Finished(o) => o == Failed(NoConfirm) && h.out == []
        case _ => false)
    && h.said == (if HostAt(h) < 3 then b.said else b.said + [HostRelay(TheReply(p.plan, b))])
    && h.limiter.consecutiveFailures == (if HostAt(h) < 2 then b.failures else b.failures + 1)
  }

  predicate ViewerHolds(p: Pair) {
    match p.viewer.pc
    case AwaitJoined => p.viewer.out == []
    case AwaitReply(pa) => pa == p.plan.pa && (p.viewer.out == [] || p.viewer.out == [ToRelay(StartMsg(p.plan))])
    case Done(r) => r == Err(WrongCodeGiven) && p.viewer.out == []
    case _ => false
  }

  function HostBox(k: Plan, hs: nat, vs: nat): seq<ServerToHost> {
    If(hs < 1, ViewerJoined) + If(vs >= 2 && hs < 2, RelayToHost(Pake(StartMsg(k)))) + If(vs >= 4 && hs < 4, ViewerLeft)
  }

  function ViewerBox(k: Plan, b: Before, hs: nat, vs: nat): seq<Envelope> {
    If(vs < 1, Deliver(Joined)) + If(hs >= 3 && vs < 3, Deliver(RelayToViewer(Pake(TheReply(k, b)))))
  }

  predicate Apart(p: Pair, b: Before) {
    var (hs, vs) := (HostAt(p.host), ViewerAt(p));
    && p.host.cfg == p.plan.host && p.viewer.cfg == p.plan.viewer && Disagree(p.plan, b)
    && HostHolds(p, b) && ViewerHolds(p)
    && (hs >= 2 ==> vs >= 2) && (vs >= 3 ==> hs >= 3) && (hs >= 4 ==> vs >= 4)
    && OnHub(p) && p.hub.current == (if vs < 4 then Some(p.g) else None)
    && p.hub.links[p.g] == ViewerLink(ViewerBox(p.plan, b, hs, vs), None)
    && QueueIs(p, HostBox(p.plan, hs, vs))
  }

  function StepsLeft(p: Pair): int { (4 - HostAt(p.host)) + (4 - ViewerAt(p)) + p.leftover }

  /** Both are done, and the slot is free. */
  predicate Over(p: Pair) {
    && p.viewer.pc == Done(Err(WrongCodeGiven)) && p.host.pc == Finished(Failed(NoConfirm))
    && p.hub.current.None?
  }

  lemma HostHearsIt(p: Pair, b: Before, i: Input)
    requires Apart(p, b) && Prompt(p, HostActs(i)) && i.Heard?
    ensures Apart(PStep(p, HostActs(i)), b) && StepsLeft(PStep(p, HostActs(i))) < StepsLeft(p)
  {
    var p' := PStep(p, HostActs(i));
    if p.leftover > 0 {
      assert p'.host == p.host.(now := i.at) && p'.hub.hostQueue == p.hub.hostQueue[1..];
      assert p.hub.hostQueue[1..][p'.leftover..] == p.hub.hostQueue[p.leftover..];
      assert L.Check(p'.host.limiter, i.at).Ok?;
    } else {
      assert p.hub.hostQueue[0..] == p.hub.hostQueue;
      HostHearsNow(p, b, i);
    }
  }

  lemma HostHearsNow(p: Pair, b: Before, i: Input)
    requires Apart(p, b) && Prompt(p, HostActs(i)) && i.Heard? && p.leftover == 0
    requires p.hub.hostQueue == HostBox(p.plan, HostAt(p.host), ViewerAt(p))
    ensures Apart(PStep(p, HostActs(i)), b) && StepsLeft(PStep(p, HostActs(i))) < StepsLeft(p)
  {
    var p' := PStep(p, HostActs(i));
    var (hs, vs) := (HostAt(p.host), ViewerAt(p));
    assert HostAt(p'.host) == hs + 1 && ViewerAt(p') == vs;
    assert p'.hub.hostQueue == HostBox(p.plan, hs + 1, vs);
    assert p'.hub.hostQueue[0..] == p'.hub.hostQueue;
    assert ViewerBox(p.plan, b, hs + 1, vs) == ViewerBox(p.plan, b, hs, vs);
  }

  lemma HostSendsIt(p: Pair, b: Before, i: Input)
    requires Apart(p, b) && Prompt(p, HostActs(i)) && i.Sent?
    ensures Apart(PStep(p, HostActs(i)), b) && StepsLeft(PStep(p, HostActs(i))) < StepsLeft(p)
  {
    var p' := PStep(p, HostActs(i));
    var vs := ViewerAt(p);
    assert p.host.out[1..] == [];
    RelayLands(p.hub, p.g, TheReply(p.plan, b));
    assert HostAt(p'.host) == 3 && vs == 2 && ViewerAt(p') == 2;
    assert ViewerBox(p.plan, b, 3, 2) == ViewerBox(p.plan, b, 2, 2) + [Deliver(RelayToViewer(Pake(TheReply(p.plan, b))))];
  }

  lemma ViewerSharesIt(p: Pair, b: Before, vi: ViewerInput)
    requires Apart(p, b) && Prompt(p, ViewerActs(vi)) && vi.VSent?
    ensures Apart(PStep(p, ViewerActs(vi)), b) && StepsLeft(PStep(p, ViewerActs(vi))) < StepsLeft(p)
  {
    var p' := PStep(p, ViewerActs(vi));
    var hs := HostAt(p.host);
    assert p.viewer.out[1..] == [];
    ShareArrives(p.hub, p.g, Pake(StartMsg(p.plan)));
    assert ViewerAt(p) == 1 && ViewerAt(p') == 2 && hs <= 1;
    QueueGrows(p, p', HostBox(p.plan, hs, 1), RelayToHost(Pake(StartMsg(p.plan))));
    assert HostBox(p.plan, hs, 2) == HostBox(p.plan, hs, 1) + [RelayToHost(Pake(StartMsg(p.plan)))];
    assert ViewerBox(p.plan, b, hs, 2) == ViewerBox(p.plan, b, hs, 1);
  }

  lemma ViewerHearsIt(p: Pair, b: Before, vi: ViewerInput)
    requires Apart(p, b) && Prompt(p, ViewerActs(vi)) && vi.VHeard?
    ensures Apart(PStep(p, ViewerActs(vi)), b) && StepsLeft(PStep(p, ViewerActs(vi))) < StepsLeft(p)
  {
    var p' := PStep(p, ViewerActs(vi));
    var (hs, vs) := (HostAt(p.host), ViewerAt(p));
    assert p.hub.links[p.g].queue == ViewerBox(p.plan, b, hs, vs);
    if p.viewer.pc.AwaitJoined? {
      assert vs == 0 && hs <= 1 && ViewerAt(p') == 1;
    } else {
      assert vs == 2 && hs == 3 && ViewerAt(p') == 3;
    }
    assert HostBox(p.plan, hs, ViewerAt(p')) == HostBox(p.plan, hs, vs);
  }

  lemma ViewerGoes(p: Pair, b: Before)
    requires Apart(p, b) && Possible(p, Leaves)
    ensures Apart(Moved(p, Leaves), b) && StepsLeft(Moved(p, Leaves)) < StepsLeft(p)
  {
    var p' := Moved(p, Leaves);
    assert HostAt(p.host) == 3 && ViewerAt(p) == 3 && ViewerAt(p') == 4;
    QueueGrows(p, p', HostBox(p.plan, 3, 3), ViewerLeft);
    assert HostBox(p.plan, 3, 4) == HostBox(p.plan, 3, 3) + [ViewerLeft];
  }

  lemma HostActKeepsApart(p: Pair, b: Before, i: Input)
    requires Apart(p, b) && Prompt(p, HostActs(i))
    ensures Apart(PStep(p, HostActs(i)), b) && StepsLeft(PStep(p, HostActs(i))) < StepsLeft(p)
  {
    if i.Heard? {
      HostHearsIt(p, b, i);
    } else {
      assert i.Sent?;
      HostSendsIt(p, b, i);
    }
  }

  lemma ViewerActKeepsApart(p: Pair, b: Before, vi: ViewerInput)
    requires Apart(p, b) && Prompt(p, ViewerActs(vi))
    ensures Apart(PStep(p, ViewerActs(vi)), b) && StepsLeft(PStep(p, ViewerActs(vi))) < StepsLeft(p)
  {
    if vi.VHeard? {
      ViewerHearsIt(p, b, vi);
    } else {
      assert vi.VSent?;
      ViewerSharesIt(p, b, vi);
    }
  }

  lemma PlanStays(p: Pair, m: Move)
    requires OnHub(p) && Possible(p, m)
    ensures Moved(p, m).plan == p.plan
  {
  }

  lemma MoveKeepsApart(p: Pair, b: Before, m: Move)
    requires Apart(p, b) && Possible(p, m)
    ensures Apart(Moved(p, m), b) && StepsLeft(Moved(p, m)) < StepsLeft(p) && Moved(p, m).plan == p.plan
  {
    PlanStays(p, m);
    match m {
      case Acts(HostActs(i)) => HostActKeepsApart(p, b, i);
      case Acts(ViewerActs(vi)) => ViewerActKeepsApart(p, b, vi);
      case Leaves => ViewerGoes(p, b);
    }
  }

  ghost predicate AllPossible(p: Pair, moves: seq<Move>)
    decreases |moves|
  {
    OnHub(p) && (moves != [] ==> Possible(p, moves[0]) && AllPossible(Moved(p, moves[0]), moves[1..]))
  }

  function AfterMoves(p: Pair, moves: seq<Move>): Pair
    requires AllPossible(p, moves)
    decreases |moves|
  {
    if moves == [] then p else AfterMoves(Moved(p, moves[0]), moves[1..])
  }

  lemma {:induction false} MovesKeepApart(p: Pair, b: Before, moves: seq<Move>)
    requires Apart(p, b) && AllPossible(p, moves)
    ensures Apart(AfterMoves(p, moves), b) && StepsLeft(AfterMoves(p, moves)) + |moves| <= StepsLeft(p)
    ensures AfterMoves(p, moves).plan == p.plan
    decreases |moves|
  {
    if moves != [] {
      MoveKeepsApart(p, b, moves[0]);
      MovesKeepApart(Moved(p, moves[0]), b, moves[1..]);
    }
  }

  /** Something can always happen until both are done. */
  function NextMove(p: Pair): Move
    requires OnHub(p)
  {
    var luck := Luck(p.plan.pb, p.host.code, true, p.plan.hostFp);
    if p.viewer.out != [] then Acts(ViewerActs(VSent(SendOk)))
    else if p.host.out != [] then Acts(HostActs(Sent(true, p.host.now, luck)))
    else if !p.viewer.pc.Done? && p.hub.links[p.g].queue != [] then
      Acts(ViewerActs(VHeard(ViewerRecv(p.hub, p.g).1, ViewerLuck(true, p.plan.pa, true, true, p.plan.viewerFp))))
    else if p.viewer.pc.Done? && p.hub.current == Some(p.g) then Leaves
    else Acts(HostActs(Heard(HostRecv(p.hub).1, p.host.now, luck)))
  }

  lemma TheHostHears(p: Pair, b: Before)
    requires Apart(p, b) && !Over(p) && p.viewer.out == [] && p.host.out == []
    requires p.viewer.pc.Done? || p.hub.links[p.g].queue == []
    ensures (p.viewer.pc.Done? && p.hub.current == Some(p.g)) || (p.hub.hostQueue != [] && HostAt(p.host) < 4)
  {
    var (hs, vs) := (HostAt(p.host), ViewerAt(p));
    assert p.hub.hostQueue[p.leftover..] == HostBox(p.plan, hs, vs);
    assert p.hub.links[p.g].queue == ViewerBox(p.plan, b, hs, vs);
  }

  lemma NotStuck(p: Pair, b: Before)
    requires Apart(p, b) && !Over(p)
    ensures Possible(p, NextMove(p))
  {
    if p.viewer.out == [] && p.host.out == [] && (p.viewer.pc.Done? || p.hub.links[p.g].queue == []) {
      TheHostHears(p, b);
    }
  }

  lemma StartsApart(p: Pair, before: Hub)
    requires JustJoined(p, before) && L.Check(p.host.limiter, p.host.now).Ok?
    requires Disagree(p.plan, Before(p.host.code, p.host.said, p.host.limiter.consecutiveFailures))
    ensures Apart(p, Before(p.host.code, p.host.said, p.host.limiter.consecutiveFailures))
    ensures StepsLeft(p) == 8 + |before.hostQueue|
  {
    JoinIs(p, before);
  }

  /**
   A mistyped code, or the wrong host. On a hub with any past: every interleaving of the two sides takes at most
   eight steps and one for each entry left in the queue, gets stuck nowhere, and ends with the viewer told that the
   code is wrong and the host left without a MAC; the host has said its reply and nothing else, has counted exactly
   one failure, and the slot is free for the next viewer.
   */
  lemma EveryInterleavingReportsTheWrongCode(p: Pair, before: Hub, moves: seq<Move>)
    requires JustJoined(p, before) && L.Check(p.host.limiter, p.host.now).Ok?
    requires p.plan.pa.Share? && p.plan.pb.Share?
    requires p.host.code != p.plan.viewer.code || p.plan.host.hostId != p.plan.viewer.hostId
    requires AllPossible(p, moves)
    ensures
      var p' := AfterMoves(p, moves);
      && |moves| <= 8 + |before.hostQueue| && OnHub(p')
      && (Over(p') || Possible(p', NextMove(p')))
      && (p'.viewer.pc.Done? ==> p'.viewer.pc.result == Err(WrongCodeGiven))
      && (p'.host.pc.Finished? ==>
            && p'.host.pc.outcome == Failed(NoConfirm) && p'.host.out == []
            && p'.host.said == p.host.said + [HostRelay(Reply(p.plan.pb, MacB(Transcript(
                                 p.host.code, p.plan.host.hostId, p.plan.pa, p.plan.pb))))]
            && p'.host.limiter.consecutiveFailures == p.host.limiter.consecutiveFailures + 1)
  {
    var b := Before(p.host.code, p.host.said, p.host.limiter.consecutiveFailures);
    StartsApart(p, before);
    MovesKeepApart(p, b, moves);
    ApartIsClear(AfterMoves(p, moves), b);
  }

  lemma ApartIsClear(p: Pair, b: Before)
    requires Apart(p, b)
    ensures StepsLeft(p) >= 0 && (Over(p) || Possible(p, NextMove(p)))
    ensures p.viewer.pc.Done? ==> p.viewer.pc.result == Err(WrongCodeGiven)
    ensures p.host.pc.Finished? ==>
              && p.host.pc.outcome == Failed(NoConfirm) && p.host.out == []
              && p.host.said == b.said + [HostRelay(TheReply(p.plan, b))]
              && p.host.limiter.consecutiveFailures == b.failures + 1
  {
    if !Over(p) { NotStuck(p, b); }
  }
}
