/**
 The starts of `HonestPair` are reached by runs of the hub: a first viewer uses up the host's patience and
 leaves something behind, and the next one joins while the limiter is closed.
 */
module RefusedVisit {
  import opened Wrappers
  import opened Protocol
  import opened HostMachine
  import opened FakeHub
  import opened HubRuns
  import L = Limiter
  import V = ViewerMachine
  import P = HonestPair

  lemma Extend(s0: Sys, acts: seq<Act>, s: Sys, a: Act) returns (acts': seq<Act>, s': Sys)
    requires Valid(s0.hub) && s == HubRuns.Run(s0, acts)
    ensures acts' == acts + [a] && s' == SStep(s, a) == HubRuns.Run(s0, acts')
  {
    acts', s' := acts + [a], SStep(s, a);
    assert acts'[..|acts|] == acts;
  }

  /** The first viewer joins, sends its share, and then twice something that is no message. */
  lemma Visits(cfg: HostConfig, code: Code, pa: Share) returns (acts: seq<Act>, s: Sys)
    ensures s == HubRuns.Run(Begin0(cfg, code), acts)
    ensures s.host == Initial(cfg, code) && s.hub.current == Some(0) && |s.hub.links| == 1 && !s.hostGone
    ensures s.hub.hostQueue
         == [ViewerJoined, RelayToHost(Pake(Start(pa))), RelayToHost(Undecodable), RelayToHost(Undecodable)]
  {
    var s0 := Begin0(cfg, code);
    var acts1, s1 := Extend(s0, [], s0, Joins);
    assert s1.hub.links == [ViewerLink([Deliver(Joined)], None)];
    var acts2, s2 := Extend(s0, acts1, s1, ClientSends(0, Pake(Start(pa))));
    var acts3, s3 := Extend(s0, acts2, s2, ClientSends(0, Undecodable));
    acts, s := Extend(s0, acts3, s3, ClientSends(0, Undecodable));
  }

  /** The host prepares its reply: the attempt counts as failed from then on. */
  lemma IsAnswered(s0: Sys, acts0: seq<Act>, s: Sys, pa: Share, luck: Luck) returns (acts: seq<Act>, s': Sys)
    requires Valid(s0.hub) && s == HubRuns.Run(s0, acts0) && pa.Share?
    requires s.host.pc.Idle? && s.host.out == [] && s.host.now == 0 && s.host.limiter == L.FRESH && !s.hostGone
    requires s.hub.hostQueue
          == [ViewerJoined, RelayToHost(Pake(Start(pa))), RelayToHost(Undecodable), RelayToHost(Undecodable)]
    ensures s' == HubRuns.Run(s0, acts) && s'.host.cfg == s.host.cfg && !s'.hostGone
    ensures s'.host.pc.AwaitConfirm? && |s'.host.out| == 1 && s'.host.out[0].ToServer? && s'.host.now == 0
    ensures s'.host.limiter.waitUntil == Some(L.NANOS_PER_SECOND)
    ensures s'.hub.hostQueue == [RelayToHost(Undecodable), RelayToHost(Undecodable)]
  {
    var acts1, s1 := Extend(s0, acts0, s, HostActs(Heard(Got(ViewerJoined), 0, luck)));
    assert s1.host.pc == AwaitStart && s1.host.out == [] && s1.host.limiter == L.FRESH && s1.host.now == 0;
    assert s1.hub.hostQueue == [RelayToHost(Pake(Start(pa))), RelayToHost(Undecodable), RelayToHost(Undecodable)];
    acts, s' := Extend(s0, acts1, s1, HostActs(Heard(Got(RelayToHost(Pake(Start(pa)))), 0, luck)));
    assert L.Backoff(1) == 1;
  }

  /** It sends the reply, and refuses what comes next. */
  lemma IsRefused(s0: Sys, acts0: seq<Act>, s: Sys, luck: Luck) returns (acts: seq<Act>, s': Sys)
    requires Valid(s0.hub) && s == HubRuns.Run(s0, acts0)
    requires s.host.pc.AwaitConfirm? && |s.host.out| == 1 && s.host.out[0].ToServer? && s.host.now == 0 && !s.hostGone
    requires s.hub.hostQueue == [RelayToHost(Undecodable), RelayToHost(Undecodable)]
    ensures s' == HubRuns.Run(s0, acts) && s'.host.cfg == s.host.cfg && !s'.hostGone
    ensures s'.host.pc == Finished(Failed(MalformedMsg))
         && s'.host.out == [ToServer(HostRelay(Rejected)), ToServer(Kick)] && s'.host.now == 0
    ensures s'.host.limiter == s.host.limiter && s'.hub.hostQueue == [RelayToHost(Undecodable)]
  {
    var acts1, s1 := Extend(s0, acts0, s, HostActs(Sent(true, 0, luck)));
    assert s1.host.pc == s.host.pc && s1.host.out == [] && s1.host.now == 0 && s1.host.limiter == s.host.limiter;
    assert s1.hub.hostQueue == s.hub.hostQueue;
    acts, s' := Extend(s0, acts1, s1, HostActs(Heard(Got(RelayToHost(Undecodable)), 0, luck)));
  }

  /** The host kicks it and waits for the next one, with an entry of the first still in its queue. */
  lemma IsSentAway(s0: Sys, acts0: seq<Act>, s: Sys, luck: Luck) returns (acts: seq<Act>, s': Sys)
    requires Valid(s0.hub) && s == HubRuns.Run(s0, acts0) && !s.hostGone
    requires s.host.pc == Finished(Failed(MalformedMsg))
          && s.host.out == [ToServer(HostRelay(Rejected)), ToServer(Kick)] && s.host.now == 0
    ensures s' == HubRuns.Run(s0, acts) && s'.host.cfg == s.host.cfg && !s'.hostGone
    ensures s'.host.pc.Idle? && s'.host.out == [] && s'.host.now == 0 && s'.host.limiter == s.host.limiter
    ensures s'.hub.hostQueue == s.hub.hostQueue && s'.hub.current == None
  {
    var acts1, s1 := Extend(s0, acts0, s, HostActs(Sent(true, 0, luck)));
    assert s1.host.out == [ToServer(Kick)] && s1.host.now == 0;
    var acts2, s2 := Extend(s0, acts1, s1, HostActs(Sent(true, 0, luck)));
    assert s2.host.out == [] && s2.hub.current == None && s2.host.now == 0;
    acts, s' := Extend(s0, acts2, s2, HostActs(Again));
  }

  /**
   The next viewer then starts as `EveryInterleavingAnnouncesTheWait` says: the host is waiting, its limiter is
   closed, and an entry of the first viewer comes before the new announcement.
   */
  lemma AnnouncedStartIsReached(k: P.Plan, pa: Share, luck: Luck) returns (acts: seq<Act>, p: P.Pair)
    requires pa.Share?
    ensures
      var s := HubRuns.Run(Begin0(k.host, k.viewer.code), acts);
      && P.JustJoined(p, s.hub) && p.plan == k && p.host == s.host && p.leftover == 1
      && p.host.now < L.NANOS_PER_SECOND && p.host.limiter.waitUntil == Some(L.NANOS_PER_SECOND)
  {
    var s0 := Begin0(k.host, k.viewer.code);
    var acts1, s1 := Visits(k.host, k.viewer.code, pa);
    var acts2, s2 := IsAnswered(s0, acts1, s1, pa, luck);
    var acts3, s3 := IsRefused(s0, acts2, s2, luck);
    var s: Sys;
    acts, s := IsSentAway(s0, acts3, s3, luck);
    p := P.Pair(k, Join(s.hub), |s.hub.links|, 1, s.host, V.VInitial(k.viewer), [], [], 0);
  }
}
