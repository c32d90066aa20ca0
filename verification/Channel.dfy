/**
 The control data channel: a queue in front of a peer that is polled for events.

 `Peer` stands for the WebRTC stack: `arrivals` are the batches of events its polls will still give, and
 the clock moves by itself. Everything else is the program's own.
 */
module Channel {
  import opened Wrappers
  import opened Protocol

  /** A received message, before it is decoded. */
  datatype Packet = Encoded(c: Control) | Garbage

  datatype PeerEvent = PeerConnected | ChannelOpen | Data(p: Packet) | PeerClosed

  class Clock {
    var now: nat

    constructor ()
    {
      var start: nat :| true;
      now := start;
    }

    method Read() returns (t: nat)
      modifies this
      ensures t == now >= old(now)
    {
      Pass();
      t := now;
    }

    /** Any amount of time passes. */
    method Pass()
      modifies this
      ensures now >= old(now)
    {
      var d: nat :| true;
      now := now + d;
    }
  }

  /** Randomness and the operating system: what chance decides, and all that it has decided. */
  class Dice<T(0)> {
    ghost var thrown: seq<T>

    constructor ()
      ensures thrown == []
    {
      thrown := [];
    }

    method Throw() returns (luck: T)
      modifies this
      ensures thrown == old(thrown) + [luck]
    {
      luck := *;
      thrown := thrown + [luck];
    }
  }

  class Peer {
    const clock: Clock
    /** Whether the other side's fingerprint is known once the channel is open. */
    const remoteKnown: bool
    var arrivals: seq<seq<PeerEvent>>
    var sent: seq<Control>
    var closeCalls: nat
    /** How many polls failed; for each message that was to be sent whether it was, and when the last one was. */
    ghost var failures: nat
    ghost var tries: seq<bool>
    ghost var triedAt: nat

    constructor (clock: Clock)
      ensures this.clock == clock && forall b :: b in arrivals ==> b != []
      ensures sent == [] && closeCalls == 0 && failures == 0 && tries == []
    {
      var arrivals: seq<seq<PeerEvent>> :| forall b :: b in arrivals ==> b != [];
      var known: bool := *;
      this.clock, this.arrivals, this.remoteKnown, sent, closeCalls := clock, arrivals, known, [], 0;
      failures, tries, triedAt := 0, [], 0;
    }

    /** Gives the next batch of events, or nothing once `maxWait` has passed, or fails. */
    method Poll(maxWait: nat) returns (r: Result<seq<PeerEvent>, ()>)
      modifies this`arrivals, this`failures, clock
      ensures clock.now >= old(clock.now)
      ensures failures == old(failures) + (if r.Err? then 1 else 0)
      ensures r.Err? ==> arrivals == old(arrivals)
      ensures r == Ok([]) ==> arrivals == old(arrivals) && clock.now >= old(clock.now) + maxWait
      ensures r.Ok? && r.value != [] ==> old(arrivals) != [] && r.value == old(arrivals)[0] && arrivals == old(arrivals)[1..]
    {
      clock.Pass();
      if * {
        failures := failures + 1;
        return Err(());
      }
      if arrivals != [] && arrivals[0] != [] {
        if * {
          r := Ok(arrivals[0]);
          arrivals := arrivals[1..];
          return;
        }
      }
      clock.now := clock.now + maxWait;
      return Ok([]);
    }

    method SendControl(c: Control) returns (ok: bool)
      modifies this`sent, this`tries, this`triedAt
      ensures sent == if ok then old(sent) + [c] else old(sent)
      ensures tries == old(tries) + [ok] && triedAt == clock.now
    {
      ok := *;
      if ok { sent := sent + [c]; }
      tries, triedAt := tries + [ok], clock.now;
    }

    method ClosePeer()
      modifies this`closeCalls
      ensures closeCalls == old(closeCalls) + 1
    {
      closeCalls := closeCalls + 1;
    }
  }

  /** The data in a batch of events, in order. */
  function DataIn(events: seq<PeerEvent>): seq<Packet> {
    if events == [] then []
    else DataIn(events[..|events| - 1]) + (if events[|events| - 1].Data? then [events[|events| - 1].p] else [])
  }

  lemma TakeOneMore(events: seq<PeerEvent>, i: nat)
    requires i < |events|
    ensures DataIn(events[..i + 1]) == DataIn(events[..i]) + (if events[i].Data? then [events[i].p] else [])
    ensures forall e :: e in events[..i + 1] <==> e in events[..i] || e == events[i]
  {
    assert events[..i + 1][..i] == events[..i];
    assert events[..i + 1] == events[..i] + [events[i]];
  }

  /** The data in successive batches, in order. */
  function DataOf(batches: seq<seq<PeerEvent>>): seq<Packet> {
    if batches == [] then [] else DataIn(batches[0]) + DataOf(batches[1..])
  }

  predicate Closes(batches: seq<seq<PeerEvent>>) { exists b :: b in batches && PeerClosed in b }

  lemma DataOfCons(batch: seq<PeerEvent>, rest: seq<seq<PeerEvent>>)
    ensures DataOf([batch] + rest) == DataIn(batch) + DataOf(rest)
  {
    assert ([batch] + rest)[1..] == rest;
  }

  lemma Reassociate<T>(x: seq<T>, y: seq<T>, z: seq<T>)
    ensures x + (y + z) == (x + y) + z
  {
  }

  lemma {:induction false} DataOfSplits(a: seq<seq<PeerEvent>>, b: seq<seq<PeerEvent>>)
    ensures DataOf(a + b) == DataOf(a) + DataOf(b)
  {
    if a == [] {
      assert a + b == b;
    } else {
      var (first, rest) := (a[0], a[1..]);
      assert a == [first] + rest;
      Reassociate([first], rest, b);
      DataOfCons(first, rest + b);
      DataOfCons(first, rest);
      DataOfSplits(rest, b);
      Reassociate(DataIn(first), DataOf(rest), DataOf(b));
    }
  }

  /** What a channel has taken in: the batches still to come, all data so far, and whether the other side closed. */
  datatype Intake = Intake(arrivals: seq<seq<PeerEvent>>, absorbed: seq<Packet>, closed: bool)

  /** `now` is `origin` after its first `k` batches, and nothing else, have been taken in. */
  predicate TookIn(origin: Intake, k: nat, now: Intake) {
    && k <= |origin.arrivals|
    && now.arrivals == origin.arrivals[k..]
    && now.absorbed == origin.absorbed + DataOf(origin.arrivals[..k])
    && (now.closed <==> origin.closed || Closes(origin.arrivals[..k]))
  }

  /** Taking in the result `events` of one poll. */
  predicate TookPolled(before: Intake, events: seq<PeerEvent>, after: Intake) {
    && (events == [] ==> after.arrivals == before.arrivals)
    && (events != [] ==>
          before.arrivals != [] && events == before.arrivals[0] && after.arrivals == before.arrivals[1..])
    && after.absorbed == before.absorbed + DataIn(events)
    && (after.closed <==> before.closed || PeerClosed in events)
  }

  lemma TakesPolled(origin: Intake, k: nat, before: Intake, events: seq<PeerEvent>, after: Intake) returns (k': nat)
    requires TookIn(origin, k, before) && TookPolled(before, events, after)
    ensures TookIn(origin, k', after) && k' == if events == [] then k else k + 1
    ensures events != [] ==> origin.arrivals[k] == events
  {
    k' := k;
    if events != [] {
      k' := k + 1;
      var (taken, more) := (origin.arrivals[..k], origin.arrivals[..k']);
      assert more == taken + [events];
      DataOfSplits(taken, [events]);
      assert DataOf([events]) == DataIn(events);
      if Closes(taken) {
        var b :| b in taken && PeerClosed in b;
        assert b in more;
      }
      if PeerClosed in events { assert events in more; }
    }
  }

  /** The results of `next` for a packet. */
  function Decoded(p: Packet): Next { if p.Encoded? then Msg(p.c) else Malformed }

  /**
   What came of a channel's use: how it opened (and whether the other side's fingerprint was then known), the
   result of each `next`, and for each message that was to be sent whether it was.
   */
  datatype Dealings = Dealings(openings: seq<(Opened, bool)>, read: seq<Next>, tries: seq<bool>)

  const NO_DEALINGS := Dealings([], [], [])

  class ControlChannel {
    const peer: Peer
    var pending: seq<Packet>
    var remoteClosed: bool
    var localClosed: bool
    /** All data ever taken from the peer, and all data ever returned by `NextControl`. */
    ghost var absorbed: seq<Packet>
    ghost var returned: seq<Packet>
    /** The results of `WaitOpen` and of `NextControl`. */
    ghost var openings: seq<(Opened, bool)>
    ghost var results: seq<Next>

    /** Nothing is lost, duplicated or reordered; the peer is closed at most once. */
    ghost predicate Valid()
      reads this, peer
    {
      absorbed == returned + pending && peer.closeCalls == (if localClosed then 1 else 0)
    }

    /** Data not yet returned, including what is still to arrive. */
    ghost function Outstanding(): nat
      reads this, peer
    {
      |pending| + |DataOf(peer.arrivals)|
    }

    ghost function Dealt(): Dealings
      reads this, peer
    {
      Dealings(openings, results, peer.tries)
    }

    ghost function TakenIn(): Intake
      reads this, peer
    {
      Intake(peer.arrivals, absorbed, remoteClosed)
    }

    constructor (peer: Peer)
      requires peer.closeCalls == 0
      ensures Valid() && this.peer == peer && pending == [] && !remoteClosed && !localClosed
      ensures absorbed == [] && returned == [] && openings == [] && results == []
    {
      this.peer, pending, remoteClosed, localClosed := peer, [], false, false;
      absorbed, returned, openings, results := [], [], [], [];
    }

    /** Takes a batch of events in; says whether the channel open. */
    method Absorb(events: seq<PeerEvent>) returns (open: bool)
      requires Valid()
      modifies this`pending, this`remoteClosed, this`absorbed
      ensures Valid()
      ensures absorbed == old(absorbed) + DataIn(events) && pending == old(pending) + DataIn(events)
      ensures remoteClosed <==> old(remoteClosed) || PeerClosed in events
      ensures open <==> ChannelOpen in events
    {
      open := false;
      var i := 0;
      while i < |events|
        invariant 0 <= i <= |events|
        invariant Valid()
        invariant absorbed == old(absorbed) + DataIn(events[..i]) && pending == old(pending) + DataIn(events[..i])
        invariant remoteClosed <==> old(remoteClosed) || PeerClosed in events[..i]
        invariant open <==> ChannelOpen in events[..i]
      {
        var ev := events[i];
        TakeOneMore(events, i);
        match ev {
          case ChannelOpen => open := true;
          case Data(p) =>
            pending := pending + [p];
            absorbed := absorbed + [p];
          case PeerClosed => remoteClosed := true;
          case PeerConnected =>
        }
        i := i + 1;
      }
      assert events[..i] == events;
    }

    /** Polls once, and takes in what that gives. */
    method PollAndAbsorb(maxWait: nat, ghost origin: Intake, ghost k: nat) returns (open: Result<bool, ()>, ghost k': nat)
      requires Valid() && TookIn(origin, k, TakenIn())
      modifies this`pending, this`remoteClosed, this`absorbed, peer`arrivals, peer`failures, peer.clock
      ensures Valid() && TookIn(origin, k', TakenIn()) && Outstanding() == old(Outstanding())
      ensures peer.clock.now >= old(peer.clock.now)
      ensures peer.failures == old(peer.failures) + (if open.Err? then 1 else 0)
      ensures if k' == k then pending == old(pending) && peer.arrivals == old(peer.arrivals)
              else k' == k + 1 && |peer.arrivals| < |old(peer.arrivals)|
      ensures open.Err? ==> k' == k && TakenIn() == old(TakenIn())
      ensures open.Ok? ==> (open.value <==> k' > k && ChannelOpen in origin.arrivals[k])
      ensures open.Ok? && k' == k ==> peer.clock.now >= old(peer.clock.now) + maxWait
    {
      ghost var before := TakenIn();
      var r := peer.Poll(maxWait);
      if r.Err? { return Err(()), k; }
      var opens := Absorb(r.value);
      k' := TakesPolled(origin, k, before, r.value, TakenIn());
      open := Ok(opens);
    }

    /**
     Polls until the channel opens, the other side closes, or the deadline passes. Data that arrives
     meanwhile is kept. `Ready` is the answer to the first batch that opens the channel.
     */
    method WaitOpen(deadline: nat) returns (how: Opened, ghost k: nat)
      requires Valid()
      modifies this`pending, this`remoteClosed, this`absorbed, this`openings, peer`arrivals, peer`failures, peer.clock
      ensures Valid() && returned == old(returned) && peer.clock.now >= old(peer.clock.now)
      ensures openings == old(openings) + [(how, peer.remoteKnown)]
      ensures peer.failures == old(peer.failures) + (if how == OpenFailed then 1 else 0)
      ensures TookIn(old(TakenIn()), k, TakenIn())
      ensures forall j :: 0 <= j < k ==>
                (ChannelOpen in old(peer.arrivals)[j] <==> how == Ready && j == k - 1)
      ensures how == Ready ==> k > 0
      ensures how == OpenClosed ==> remoteClosed
      ensures how == OpenTimedOut ==> !remoteClosed && peer.clock.now >= deadline
    {
      k := 0;
      assert peer.arrivals[..0] == [] && peer.arrivals[0..] == peer.arrivals;
      while true
        invariant Valid() && returned == old(returned) && peer.clock.now >= old(peer.clock.now)
        invariant openings == old(openings) && peer.failures == old(peer.failures)
        invariant TookIn(old(TakenIn()), k, TakenIn())
        invariant forall j :: 0 <= j < k ==> ChannelOpen !in old(peer.arrivals)[j]
        decreases |peer.arrivals|, if peer.clock.now < deadline then deadline - peer.clock.now else 0
      {
        if remoteClosed {
          how := OpenClosed;
          break;
        }
        var now := peer.clock.Read();
        if now >= deadline {
          how := OpenTimedOut;
          break;
        }
        var open;
        open, k := PollAndAbsorb(deadline - now, old(TakenIn()), k);
        if open.Err? {
          how := OpenFailed;
          break;
        }
        if open.value {
          how := Ready;
          break;
        }
      }
      openings := openings + [(how, peer.remoteKnown)];
    }

    /**
     The next control message, queued ones first. `Closed` comes only after everything queued was returned,
     and then for ever.
     */
    method NextControl(deadline: nat) returns (n: Next, ghost k: nat)
      requires Valid()
      modifies this`pending, this`remoteClosed, this`absorbed, this`returned, this`results,
               peer`arrivals, peer`failures, peer.clock
      ensures Valid() && peer.clock.now >= old(peer.clock.now)
      ensures results == old(results) + [n]
      ensures peer.failures == old(peer.failures) + (if n == NextFailed then 1 else 0)
      ensures TookIn(old(TakenIn()), k, TakenIn())
      ensures n.Msg? || n.Malformed? ==>
                && |returned| == |old(returned)| + 1 && returned[..|old(returned)|] == old(returned)
                && n == Decoded(returned[|old(returned)|])
      ensures !(n.Msg? || n.Malformed?) ==> returned == old(returned) && pending == []
      ensures n == Closed ==> remoteClosed
      ensures n == TimedOut ==> !remoteClosed && peer.clock.now >= deadline
      ensures old(pending) != [] ==> k == 0 && n == Decoded(old(pending)[0]) && peer.clock.now == old(peer.clock.now)
      ensures old(pending) == [] && old(remoteClosed) ==> k == 0 && n == Closed && peer.clock.now == old(peer.clock.now)
      ensures Outstanding() == old(Outstanding()) - (if n.Msg? || n.Malformed? then 1 else 0)
    {
      k := 0;
      assert peer.arrivals[..0] == [] && peer.arrivals[0..] == peer.arrivals;
      while true
        invariant Valid() && returned == old(returned) && peer.clock.now >= old(peer.clock.now)
        invariant results == old(results) && peer.failures == old(peer.failures)
        invariant TookIn(old(TakenIn()), k, TakenIn())
        invariant Outstanding() == old(Outstanding())
        invariant k == 0 ==> pending == old(pending)
        invariant old(pending) != [] || old(remoteClosed) ==> k == 0 && peer.clock.now == old(peer.clock.now)
        decreases |peer.arrivals|, if peer.clock.now < deadline then deadline - peer.clock.now else 0
      {
        if pending != [] {
          n := Decoded(pending[0]);
          returned := returned + [pending[0]];
          pending := pending[1..];
          break;
        }
        if remoteClosed {
          n := Closed;
          break;
        }
        var now := peer.clock.Read();
        if now >= deadline {
          n := TimedOut;
          break;
        }
        var open;
        open, k := PollAndAbsorb(deadline - now, old(TakenIn()), k);
        if open.Err? {
          n := NextFailed;
          break;
        }
      }
      results := results + [n];
    }

    method SendControl(c: Control) returns (ok: bool)
      requires Valid()
      modifies peer`sent, peer`tries, peer`triedAt
      ensures Valid() && peer.sent == if ok then old(peer.sent) + [c] else old(peer.sent)
      ensures peer.tries == old(peer.tries) + [ok] && peer.triedAt == peer.clock.now
    {
      ok := peer.SendControl(c);
    }

    /** Closes the peer, unless that was done before. Dropping the channel does the same. */
    method Close()
      requires Valid()
      modifies this`localClosed, peer`closeCalls, peer`arrivals, peer`failures, peer.clock
      ensures Valid() && localClosed && peer.closeCalls == 1 && peer.clock.now >= old(peer.clock.now)
    {
      if localClosed { return; }
      localClosed := true;
      peer.ClosePeer();
      var _ := peer.Poll(0);
    }
  }
}
