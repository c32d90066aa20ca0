/**
 The host on the in-memory hub, under every interleaving with any number of clients that join, replace
 each other, send what they like, read or not, and leave.
 */
module HubRuns {
  import opened Wrappers
  import opened Protocol
  import opened HostMachine
  import opened FakeHub
  import HostRuns

  /**
   `taken`: what the host has received so far, with the viewer that caused it. `left`: links dropped by their owners.
   `hostGone`: the host has dropped its own.
   */
  datatype Sys = Sys(hub: Hub, host: Host, taken: seq<(ServerToHost, nat)>, left: set<nat>, hostGone: bool)

  datatype Act =
    | Joins
    | ClientSends(g: nat, p: Payload)
    | ClientReads(g: nat)
    | ClientLeaves(g: nat)
    | HostActs(i: Input)
    | HostLeaves

  /** The host receives what its link gives it; the link to the hub itself never breaks. */
  function HostStep(s: Sys, i: Input): (s': Sys)
    requires Valid(s.hub)
    ensures Valid(s'.hub)
  {
    if s.hostGone || !Expects(s.host, i) then s
    else
      match i
      case Heard(r, _, _) =>
        var (hub, got) := HostRecv(s.hub);
        if r != got then s
        else
          var taken := if got.Got? then s.taken + [(got.msg, s.hub.origins[0])] else s.taken;
          s.(hub := hub, host := Step(s.host, i), taken := taken)
      case Sent(ok, _, _) =>
        if s.host.out[0].ToServer? then
          if ok then s.(hub := HostSend(s.hub, s.host.out[0].m), host := Step(s.host, i)) else s
        else s.(host := Step(s.host, i))
      case _ => s.(host := Step(s.host, i))
  }

  function SStep(s: Sys, a: Act): (s': Sys)
    requires Valid(s.hub)
    ensures Valid(s'.hub)
  {
    match a
    case Joins => s.(hub := Join(s.hub))
    case ClientSends(g, p) => if g < |s.hub.links| then s.(hub := ViewerSend(s.hub, g, p).0) else s
    case ClientReads(g) => if g < |s.hub.links| then s.(hub := ViewerRecv(s.hub, g).0) else s
    case ClientLeaves(g) => if g < |s.hub.links| then s.(hub := ViewerDrop(s.hub, g), left := s.left + {g}) else s
    case HostActs(i) => HostStep(s, i)
    case HostLeaves => if s.hostGone then s else s.(hub := HostDrop(s.hub), hostGone := true)
  }

  /** What still waits in the host's queue, with its origins. */
  function Waiting(h: Hub): (w: seq<(ServerToHost, nat)>)
    requires Valid(h)
    ensures |w| == |h.hostQueue|
  {
    seq(|h.hostQueue|, i requires 0 <= i < |h.hostQueue| => (h.hostQueue[i], h.origins[i]))
  }

  /** Entries of one viewer stand together, and its `ViewerJoined` comes first. */
  predicate InSegments(all: seq<(ServerToHost, nat)>) {
    && (all != [] ==> all[0].0 == ViewerJoined)
    && forall k :: 0 < k < |all| && all[k].0 != ViewerJoined ==> all[k].1 == all[k - 1].1
  }

  predicate IsStart(m: ServerToHost, t: Transcript) { m == RelayToHost(Pake(Start(t.pa))) }

  predicate IsConfirm(m: ServerToHost, e: Ends) {
    m == RelayToHost(Pake(Confirm(MacA(e.t), Sealed(e.t, ViewerToHost, 0, Sdp(e.remote)))))
  }

  predicate TookAll(taken: seq<(ServerToHost, nat)>, e: Ends) {
    var n := |taken|;
    n >= 3 && taken[n - 3].0 == ViewerJoined && IsStart(taken[n - 2].0, e.t) && IsConfirm(taken[n - 1].0, e)
  }

  /** What the host took from its queue to get where it is. */
  predicate Took(host: Host, taken: seq<(ServerToHost, nat)>) {
    var n := |taken|;
    match host.pc
    case AwaitStart => n >= 1 && taken[n - 1].0 == ViewerJoined
    case AwaitConfirm(t) => n >= 2 && taken[n - 2].0 == ViewerJoined && IsStart(taken[n - 1].0, t)
    case AwaitOpen(e) => TookAll(taken, e)
    case AwaitHello(e) => TookAll(taken, e)
    case Asking(e, _, _) => TookAll(taken, e)
    case Listening(e, _, _) => TookAll(taken, e)
    case Granting(e, _) => TookAll(taken, e)
    case Finished(o) =>
      o.Session? ==>
        host.log != [] && HostRuns.Last(host.log).AcceptSent? && TookAll(taken, HostRuns.Last(host.log).e)
    case _ => true
  }

  predicate SysInv(s: Sys) {
    && Valid(s.hub)
    && InSegments(s.taken + Waiting(s.hub))
    && (s.hub.current.Some? ==>
          var all := s.taken + Waiting(s.hub);
          all != [] && all[|all| - 1].1 == s.hub.current.value)
    && Took(s.host, s.taken)
  }

  lemma QueueGrows(s: Sys, hub: Hub, m: ServerToHost, g: nat)
    requires SysInv(s) && Valid(hub)
    requires hub.hostQueue == s.hub.hostQueue + [m] && hub.origins == s.hub.origins + [g]
    requires m == ViewerJoined || s.hub.current == Some(g)
    requires hub.current.Some? ==> hub.current == Some(g)
    ensures SysInv(s.(hub := hub))
  {
    var all := s.taken + Waiting(s.hub);
    assert s.taken + Waiting(hub) == all + [(m, g)];
  }

  lemma HubChanges(s: Sys, hub: Hub)
    requires SysInv(s) && Valid(hub) && hub.hostQueue == s.hub.hostQueue && hub.origins == s.hub.origins
    requires hub.current.Some? ==> hub.current == s.hub.current
    ensures SysInv(s.(hub := hub))
  {
    assert Waiting(hub) == Waiting(s.hub);
  }

  lemma HeardTook(h: Host, r: LinkRecv<ServerToHost>, at: nat, luck: Luck, taken: seq<(ServerToHost, nat)>, g: nat)
    requires Took(h, taken) && (h.pc.Idle? || h.pc.AwaitStart? || h.pc.AwaitConfirm?)
    ensures Took(Hear(h, r, at, luck), if r.Got? then taken + [(r.msg, g)] else taken)
  {
    var taken' := if r.Got? then taken + [(r.msg, g)] else taken;
    var n := |taken|;
    assert forall k :: 0 <= k < n ==> taken'[k] == taken[k];
  }

  lemma OtherTook(h: Host, i: Input, taken: seq<(ServerToHost, nat)>)
    requires Took(h, taken) && !i.Heard?
    ensures Took(Step(h, i), taken)
  {
  }

  lemma TakesNext(s: Sys)
    requires SysInv(s) && s.hub.hostQueue != []
    ensures
      var (hub, got) := HostRecv(s.hub);
      Valid(hub) && s.taken + [(got.msg, s.hub.origins[0])] + Waiting(hub) == s.taken + Waiting(s.hub)
  {
  }

  lemma HostHearsKeeps(s: Sys, i: Input)
    requires SysInv(s) && !s.hostGone && Expects(s.host, i) && i.Heard?
    ensures SysInv(HostStep(s, i))
  {
    var got := HostRecv(s.hub).1;
    if i.r == got {
      HeardTook(s.host.(now := i.at), i.r, i.at, i.luck, s.taken, if got.Got? then s.hub.origins[0] else 0);
      if got.Got? { TakesNext(s); }
    }
  }

  lemma HostStepKeeps(s: Sys, i: Input)
    requires SysInv(s)
    ensures SysInv(HostStep(s, i))
  {
    if !s.hostGone && Expects(s.host, i) {
      match i {
        case Heard(r, at, luck) => HostHearsKeeps(s, i);
        case Sent(ok, _, _) =>
          OtherTook(s.host, i, s.taken);
          if s.host.out[0].ToServer? && ok { HubChanges(s, HostSend(s.hub, s.host.out[0].m)); }
        case _ => OtherTook(s.host, i, s.taken);
      }
    }
  }

  lemma SStepKeeps(s: Sys, a: Act)
    requires SysInv(s)
    ensures SysInv(SStep(s, a))
  {
    match a {
      case Joins => QueueGrows(s, Join(s.hub), ViewerJoined, |s.hub.links|);
      case ClientSends(g, p) =>
        if g < |s.hub.links| {
          var (hub, r) := ViewerSend(s.hub, g, p);
          if r.Ok? { QueueGrows(s, hub, RelayToHost(p), g); }
        }
      case ClientReads(g) => if g < |s.hub.links| { HubChanges(s, ViewerRecv(s.hub, g).0); }
      case ClientLeaves(g) =>
        if s.hub.current == Some(g) { QueueGrows(s, ViewerDrop(s.hub, g), ViewerLeft, g); }
        assert s.taken + Waiting(ViewerDrop(s.hub, g)) == SStep(s, a).taken + Waiting(ViewerDrop(s.hub, g));
      case HostActs(i) => HostStepKeeps(s, i);
      case HostLeaves => HubChanges(s, HostDrop(s.hub));
    }
  }

  function Run(s: Sys, acts: seq<Act>): (s': Sys)
    requires Valid(s.hub)
    ensures Valid(s'.hub)
  {
    if acts == [] then s else SStep(Run(s, acts[..|acts| - 1]), acts[|acts| - 1])
  }

  function Begin0(cfg: HostConfig, code: Code): Sys { Sys(EMPTY, Initial(cfg, code), [], {}, false) }

  lemma {:induction false} RunKeeps(cfg: HostConfig, code: Code, acts: seq<Act>)
    ensures SysInv(Run(Begin0(cfg, code), acts))
  {
    if acts != [] {
      RunKeeps(cfg, code, acts[..|acts| - 1]);
      SStepKeeps(Run(Begin0(cfg, code), acts[..|acts| - 1]), acts[|acts| - 1]);
    }
  }

  /** In an attempt, everything the host acted on came from the viewer whose joining began it. */
  predicate FromOneViewer(s: Sys) {
    var n := |s.taken|;
    match s.host.pc
    case AwaitConfirm(t) =>
      && n >= 2 && s.taken[n - 2].0 == ViewerJoined && IsStart(s.taken[n - 1].0, t)
      && s.taken[n - 2].1 == s.taken[n - 1].1
    case AwaitOpen(e) => AllFromOne(s.taken, e)
    case AwaitHello(e) => AllFromOne(s.taken, e)
    case Asking(e, _, _) => AllFromOne(s.taken, e)
    case Listening(e, _, _) => AllFromOne(s.taken, e)
    case Granting(e, _) => AllFromOne(s.taken, e)
    case Finished(o) =>
      o.Session? ==>
        s.host.log != [] && HostRuns.Last(s.host.log).AcceptSent? && AllFromOne(s.taken, HostRuns.Last(s.host.log).e)
    case _ => true
  }

  predicate AllFromOne(taken: seq<(ServerToHost, nat)>, e: Ends) {
    var n := |taken|;
    TookAll(taken, e) && taken[n - 3].1 == taken[n - 2].1 == taken[n - 1].1
  }

  lemma SoundSysServesOne(s: Sys)
    requires SysInv(s)
    ensures FromOneViewer(s)
  {
    var n := |s.taken|;
    var all := s.taken + Waiting(s.hub);
    assert forall k :: 0 <= k < n ==> all[k] == s.taken[k];
    if n >= 2 && s.taken[n - 1].0 != ViewerJoined { assert all[n - 1].1 == all[n - 2].1; }
    if n >= 3 && s.taken[n - 2].0 != ViewerJoined { assert all[n - 2].1 == all[n - 3].1; }
  }

  /**
   The `Start` the host answers and the `Confirm` it accepts come from the very viewer whose joining began
   the attempt, whoever joins, replaces, leaves or is kicked meanwhile, and whatever is left in the queue.
   */
  lemma OneViewerPerAttempt(cfg: HostConfig, code: Code, acts: seq<Act>)
    ensures FromOneViewer(Run(Begin0(cfg, code), acts))
  {
    RunKeeps(cfg, code, acts);
    SoundSysServesOne(Run(Begin0(cfg, code), acts));
  }

  // A viewer's link never ends without a reason.

  /** The link is current, or was told why it ended, or still has its close to deliver, last. */
  predicate WillBeTold(h: Hub, g: nat) {
    g < |h.links| ==>
      var l := h.links[g];
      && l.closed != Some(None)
      && (h.current == Some(g) || l.closed.Some? || (l.queue != [] && l.queue[|l.queue| - 1].CloseWith?))
  }

  ghost predicate EveryLinkTold(s: Sys) {
    Valid(s.hub) && forall g :: 0 <= g < |s.hub.links| && g !in s.left ==> WillBeTold(s.hub, g)
  }

  lemma SStepTells(s: Sys, a: Act)
    requires EveryLinkTold(s)
    ensures EveryLinkTold(SStep(s, a))
  {
    var s' := SStep(s, a);
    forall g | 0 <= g < |s'.hub.links| && g !in s'.left ensures WillBeTold(s'.hub, g) {
      if g < |s.hub.links| { assert WillBeTold(s.hub, g); }
    }
  }

  /**
   In every run, a link its owner still holds and that is not the current viewer's has been closed with a
   code or will be; a bare disconnection is never reported.
   */
  lemma {:induction false} NoSilentDisconnection(cfg: HostConfig, code: Code, acts: seq<Act>)
    ensures EveryLinkTold(Run(Begin0(cfg, code), acts))
  {
    if acts != [] {
      NoSilentDisconnection(cfg, code, acts[..|acts| - 1]);
      SStepTells(Run(Begin0(cfg, code), acts[..|acts| - 1]), acts[|acts| - 1]);
    }
  }

  // What a viewer reads when its host leaves.

  /** Nothing queued for the current viewer ends its link, and it has not seen an end. */
  predicate SlotOpen(h: Hub) {
    h.current.Some? ==>
      && h.current.value < |h.links| && h.links[h.current.value].closed.None?
      && forall i :: 0 <= i < |h.links[h.current.value].queue| ==> h.links[h.current.value].queue[i].Deliver?
  }

  lemma SStepKeepsSlot(s: Sys, a: Act)
    requires Valid(s.hub) && SlotOpen(s.hub)
    ensures SlotOpen(SStep(s, a).hub)
  {
  }

  lemma {:induction false} RunKeepsSlot(cfg: HostConfig, code: Code, acts: seq<Act>)
    ensures SlotOpen(Run(Begin0(cfg, code), acts).hub)
  {
    if acts != [] {
      RunKeepsSlot(cfg, code, acts[..|acts| - 1]);
      SStepKeepsSlot(Run(Begin0(cfg, code), acts[..|acts| - 1]), acts[|acts| - 1]);
    }
  }

  /** What `n` readings of a link give, one after the other. */
  function Readings(h: Hub, g: nat, n: nat): seq<LinkRecv<ServerToViewer>>
    requires g < |h.links|
    decreases n
  {
    if n == 0 then [] else [ViewerRecv(h, g).1] + Readings(ViewerRecv(h, g).0, g, n - 1)
  }

  /** The hub after that. */
  function AfterReadings(h: Hub, g: nat, n: nat): (h': Hub)
    requires g < |h.links|
    ensures |h'.links| == |h.links|
    decreases n
  {
    if n == 0 then h else AfterReadings(ViewerRecv(h, g).0, g, n - 1)
  }

  function Contents(queue: seq<Envelope>): (r: seq<LinkRecv<ServerToViewer>>)
    requires forall i :: 0 <= i < |queue| ==> queue[i].Deliver?
    ensures |r| == |queue|
  {
    seq(|queue|, i requires 0 <= i < |queue| => Got(queue[i].m))
  }

  function Ends(n: nat): (r: seq<LinkRecv<ServerToViewer>>)
    ensures |r| == n
  {
    seq(n, _ => Broken(true))
  }

  lemma {:induction false} ClosedStaysClosed(h: Hub, g: nat, n: nat)
    requires g < |h.links| && h.links[g].closed.Some?
    ensures Readings(h, g, n) == Ends(n) && AfterReadings(h, g, n) == h
    decreases n
  {
    if n > 0 {
      ClosedStaysClosed(h, g, n - 1);
      assert [Broken(true)] + Ends(n - 1) == Ends(n);
    }
  }

  /** A link that will be closed gives everything queued before, in order, and then its end for ever. */
  lemma {:induction false} ReadToTheEnd(h: Hub, g: nat, queue: seq<Envelope>, code: nat, n: nat)
    requires g < |h.links| && h.links[g] == ViewerLink(queue + [CloseWith(code)], None)
    requires forall i :: 0 <= i < |queue| ==> queue[i].Deliver?
    ensures Readings(h, g, |queue| + 1 + n) == Contents(queue) + Ends(1 + n)
    ensures AfterReadings(h, g, |queue| + 1 + n).links[g] == ViewerLink([], Some(Some(code)))
    decreases |queue|
  {
    var h' := ViewerRecv(h, g).0;
    if queue == [] {
      ClosedStaysClosed(h', g, n);
      assert [Broken(true)] + Ends(n) == Contents(queue) + Ends(1 + n);
    } else {
      var rest := queue[1..];
      assert (queue + [CloseWith(code)])[1..] == rest + [CloseWith(code)];
      ReadToTheEnd(h', g, rest, code, n);
      assert [Got(queue[0].m)] + (Contents(rest) + Ends(1 + n)) == Contents(queue) + Ends(1 + n);
    }
  }

  /**
   When the host drops its link, the viewer that has the slot then reads, in order, all that was still queued for
   it, that its host left, and the end of the link with 4002, for ever; the others' links are untouched and the slot
   is free.
   */
  lemma LeavingHostIsNoticed(cfg: HostConfig, code: Code, acts: seq<Act>, g: nat, n: nat)
    requires
      var s := Run(Begin0(cfg, code), acts);
      s.hub.current == Some(g) && !s.hostGone
    ensures
      var (s, s') := (Run(Begin0(cfg, code), acts), SStep(Run(Begin0(cfg, code), acts), HostLeaves));
      && g < |s.hub.links| == |s'.hub.links| && s'.hub.current == None && s'.hostGone
      && SlotOpen(s.hub) && s.hub.links[g].closed.None?
      && var queue := s.hub.links[g].queue;
      && Readings(s'.hub, g, |queue| + 2 + n) == Contents(queue) + [Got(HostLeft)] + Ends(1 + n)
      && AfterReadings(s'.hub, g, |queue| + 2 + n).links[g].closed == Some(Some(4002))
      && (forall o :: 0 <= o < |s.hub.links| && o != g ==> s'.hub.links[o] == s.hub.links[o])
  {
    RunKeepsSlot(cfg, code, acts);
    DropIsNoticed(Run(Begin0(cfg, code), acts).hub, g, n);
  }

  lemma DropIsNoticed(h: Hub, g: nat, n: nat)
    requires Valid(h) && SlotOpen(h) && h.current == Some(g)
    ensures
      var (h', queue) := (HostDrop(h), h.links[g].queue);
      && |h.links| == |h'.links| && h'.current == None
      && Readings(h', g, |queue| + 2 + n) == Contents(queue) + [Got(HostLeft)] + Ends(1 + n)
      && AfterReadings(h', g, |queue| + 2 + n).links[g].closed == Some(Some(4002))
      && (forall o :: 0 <= o < |h.links| && o != g ==> h'.links[o] == h.links[o])
  {
    var (h', queue) := (HostDrop(h), h.links[g].queue);
    var all := queue + [Deliver(HostLeft)];
    assert h'.links[g] == ViewerLink(all + [CloseWith(HOST_LEFT)], None);
    ReadToTheEnd(h', g, all, HOST_LEFT, n);
    assert Contents(all) == Contents(queue) + [Got(HostLeft)];
  }

  /**
   A viewer that loses the slot, to a kick or to the next viewer, reads all that was still queued for it and then
   the end of its link, with 4001; what it sends from then on is refused and reaches nobody.
   */
  lemma LosingTheSlotIsNoticed(cfg: HostConfig, code: Code, acts: seq<Act>, g: nat, kicked: bool, p: Payload, n: nat)
    requires Run(Begin0(cfg, code), acts).hub.current == Some(g)
    ensures
      var h := Run(Begin0(cfg, code), acts).hub;
      && SlotOpen(h) && g < |h.links|
      && NoticesLoss(h, if kicked then HostSend(h, Kick) else Join(h), g, p, n)
  {
    RunKeepsSlot(cfg, code, acts);
    SlotIsLost(Run(Begin0(cfg, code), acts).hub, g, kicked, p, n);
  }

  predicate NoticesLoss(h: Hub, h': Hub, g: nat, p: Payload, n: nat)
    requires SlotOpen(h) && h.current == Some(g)
  {
    var queue := h.links[g].queue;
    && g < |h'.links|
    && Readings(h', g, |queue| + 1 + n) == Contents(queue) + Ends(1 + n)
    && AfterReadings(h', g, |queue| + 1 + n).links[g].closed == Some(Some(4001))
    && ViewerSend(h', g, p) == (h', Err(LinkClosed(Some(4001))))
  }

  lemma SlotIsLost(h: Hub, g: nat, kicked: bool, p: Payload, n: nat)
    requires Valid(h) && SlotOpen(h) && h.current == Some(g)
    ensures NoticesLoss(h, if kicked then HostSend(h, Kick) else Join(h), g, p, n)
  {
    var h' := if kicked then HostSend(h, Kick) else Join(h);
    assert h'.links[g] == ViewerLink(h.links[g].queue + [CloseWith(KICKED)], None);
    ReadToTheEnd(h', g, h.links[g].queue, KICKED, n);
  }

  /** The host is told that a viewer left exactly when it was the one with the slot, which is then free; and once. */
  lemma LeavingIsReportedOnce(h: Hub, g: nat)
    ensures
      var h' := ViewerDrop(h, g);
      && (h.current == Some(g) ==>
            h'.hostQueue == h.hostQueue + [ViewerLeft] && h'.origins == h.origins + [g] && h'.current == None)
      && (h.current != Some(g) ==> h' == h) && h'.links == h.links && ViewerDrop(h', g) == h'
  {
  }

  /** The messages the host relays are recorded in order, whether or not a viewer is there, and nothing else is. */
  lemma RelaysAreRecorded(s: Sys, a: Act)
    requires Valid(s.hub)
    ensures
      var sends := a.HostActs? && !s.hostGone && a.i.Sent? && Expects(s.host, a.i) && a.i.ok && s.host.out[0].ToServer?;
      SStep(s, a).hub.hostRelays
      == if sends && s.host.out[0].m.HostRelay? then s.hub.hostRelays + [s.host.out[0].m.msg] else s.hub.hostRelays
  {
  }
}
