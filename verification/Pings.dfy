/** What the two sides do with an accepted connection: the viewer measures round trips, the host answers. */
module Pings {
  import opened Wrappers
  import opened Protocol
  import opened Channel
  import V = ViewerMachine

  /** The answers owed for what was received: a `Pong` for every `Ping`, in order, and nothing else. */
  function Answers(heard: seq<Packet>): seq<Control> {
    if heard == [] then []
    else
      var last := heard[|heard| - 1];
      Answers(heard[..|heard| - 1])
      + (if last.Encoded? && last.c.Ping? then [Pong(last.c.seqNo)] else [])
  }

  /** Every packet decodes. */
  predicate Readable(heard: seq<Packet>) { forall i :: 0 <= i < |heard| ==> heard[i].Encoded? }

  lemma OneMoreHeard(heard: seq<Packet>, p: Packet)
    ensures (heard + [p])[..|heard|] == heard
    ensures Answers(heard + [p]) == Answers(heard) + (if p.Encoded? && p.c.Ping? then [Pong(p.c.seqNo)] else [])
    ensures Readable(heard + [p]) <==> Readable(heard) && p.Encoded?
  {
    assert (heard + [p])[..|heard|] == heard;
    assert forall i :: 0 <= i < |heard| ==> (heard + [p])[i] == heard[i];
    if Readable(heard + [p]) {
      assert (heard + [p])[|heard|] == p;
      assert forall i :: 0 <= i < |heard| ==> heard[i] == (heard + [p])[i];
    }
  }

  /**
   How answering pings ends: with the first thing that is no message, or with a ping whose answer could not be
   sent; and for the lack of time only when the time is up.
   */
  predicate EndsService(last: Next, ok: bool, timeUp: bool) {
    && (ok <==> last.Closed? || last.TimedOut? || last.Malformed?)
    && (last.TimedOut? ==> timeUp)
    && (last.Msg? ==> last.control.Ping?)
  }

  class HostSession {
    const ch: ControlChannel

    constructor (ch: ControlChannel)
      ensures this.ch == ch
    {
      this.ch := ch;
    }

    /** The next message, as `ControlChannel.NextControl` gives it. */
    method Hear(deadline: nat) returns (n: Next)
      requires ch.Valid()
      modifies ch, ch.peer, ch.peer.clock
      ensures ch.Valid() && ch.peer.sent == old(ch.peer.sent) && ch.localClosed == old(ch.localClosed)
      ensures ch.results == old(ch.results) + [n] && ch.peer.tries == old(ch.peer.tries)
      ensures ch.peer.clock.now >= old(ch.peer.clock.now) && (n == TimedOut ==> ch.peer.clock.now >= deadline)
      ensures ch.Outstanding() == old(ch.Outstanding()) - (if n.Msg? || n.Malformed? then 1 else 0)
      ensures if n.Msg? || n.Malformed? then
                && |ch.returned| == |old(ch.returned)| + 1 && n == Decoded(ch.returned[|old(ch.returned)|])
                && ch.returned == old(ch.returned) + [ch.returned[|old(ch.returned)|]]
              else ch.returned == old(ch.returned)
    {
      ghost var was := ch.returned;
      var next, _ := ch.NextControl(deadline);
      n := next;
      if n.Msg? || n.Malformed? { assert ch.returned == was + [ch.returned[|was|]]; }
    }

    /**
     Answers pings until the connection ends or the time is up; `ok` unless the transport fails. A message
     that cannot be decoded ends it too, and closes the channel. `last` is what the last `next` gave.
     */
    method ServePings(forAtMost: nat) returns (ok: bool, ghost heard: seq<Packet>, ghost last: Next)
      requires ch.Valid()
      modifies ch, ch.peer, ch.peer.clock
      ensures ch.Valid() && ch.returned == old(ch.returned) + heard
      ensures ok ==> ch.peer.sent == old(ch.peer.sent) + Answers(heard)
      ensures !ok ==> ch.peer.sent == old(ch.peer.sent) + Answers(heard)
                      || (heard != [] && ch.peer.sent == old(ch.peer.sent) + Answers(heard[..|heard| - 1]))
      ensures if Readable(heard) then ch.localClosed == old(ch.localClosed)
              else ok && ch.localClosed && Readable(heard[..|heard| - 1])
      ensures |ch.results| == |old(ch.results)| + |heard| + (if last.Msg? || last.Malformed? then 0 else 1)
      ensures ch.results != [] && ch.results[|ch.results| - 1] == last
      ensures EndsService(last, ok, ch.peer.clock.now - old(ch.peer.clock.now) >= forAtMost)
      ensures last.Msg? ==> ch.peer.sent != old(ch.peer.sent) + Answers(heard)
    {
      heard := [];
      var now := ch.peer.clock.Read();
      var deadline := now + forAtMost;
      while true
        invariant ch.Valid() && ch.returned == old(ch.returned) + heard && ch.localClosed == old(ch.localClosed)
        invariant ch.peer.sent == old(ch.peer.sent) + Answers(heard) && Readable(heard)
        invariant |ch.results| == |old(ch.results)| + |heard|
        invariant ch.peer.clock.now >= now
        decreases ch.Outstanding()
      {
        ghost var (earlier, was) := (heard, ch.returned);
        var n := Hear(deadline);
        last := n;
        if n.Closed? || n.TimedOut? { return true, heard, last; }
        if n.NextFailed? { return false, heard, last; }
        ghost var p := ch.returned[|was|];
        heard := heard + [p];
        OneMoreHeard(earlier, p);
        if n.Malformed? {
          ch.Close();
          return true, heard, last;
        }
        if n.control.Ping? {
          var sent := ch.SendControl(Pong(n.control.seqNo));
          if !sent { return false, heard, last; }
        }
      }
    }
  }

  predicate Increasing(asked: seq<nat>, next: nat) {
    && (forall i, j :: 0 <= i < j < |asked| ==> asked[i] < asked[j])
    && (forall i :: 0 <= i < |asked| ==> asked[i] < next)
  }

  function PingsFor(asked: seq<nat>): (r: seq<Control>)
    ensures |r| == |asked|
  {
    seq(|asked|, i requires 0 <= i < |asked| => Ping(asked[i]))
  }

  /** `heard` ends with the answer to `s` and has no other. */
  predicate EndsWithPong(heard: seq<Packet>, s: nat) {
    && heard != [] && heard[|heard| - 1] == Encoded(Pong(s))
    && forall i :: 0 <= i < |heard| - 1 ==> heard[i].Encoded? && heard[i].c != Pong(s)
  }

  function Encode(controls: seq<Control>): (r: seq<Packet>)
    ensures |r| == |controls|
  {
    seq(|controls|, i requires 0 <= i < |controls| => Encoded(controls[i]))
  }

  /** What was heard is the beginning of what a host answers to these pings. */
  predicate AnsweredInOrder(asked: seq<nat>, heard: seq<Packet>) {
    heard <= Encode(Answers(Encode(PingsFor(asked))))
  }

  /** A host answers pings one by one. */
  lemma {:induction false} AnswersToPings(asked: seq<nat>)
    ensures
      var answers := Answers(Encode(PingsFor(asked)));
      |answers| == |asked| && forall i :: 0 <= i < |asked| ==> answers[i] == Pong(asked[i])
    decreases |asked|
  {
    if asked != [] {
      var front := asked[..|asked| - 1];
      AnswersToPings(front);
      assert Encode(PingsFor(asked)) == Encode(PingsFor(front)) + [Encoded(Ping(asked[|front|]))];
      OneMoreHeard(Encode(PingsFor(front)), Encoded(Ping(asked[|front|])));
    }
  }

  /**
   Over a connection that keeps order, with a host that answers: when a ping returns a time, everything heard
   so far is one answer to each ping up to that one, which was the last, so no late answer is left to come.
   */
  lemma PingHearsItsOwnAnswer(asked: seq<nat>, next: nat, heard: seq<Packet>, s: nat)
    requires Increasing(asked, next) && AnsweredInOrder(asked, heard)
    requires heard != [] && heard[|heard| - 1] == Encoded(Pong(s))
    ensures |heard| <= |asked| && asked[|heard| - 1] == s
    ensures forall i :: 0 <= i < |asked| ==> (asked[i] <= s <==> i < |heard|)
    ensures forall i :: 0 <= i < |heard| ==> heard[i] == Encoded(Pong(asked[i]))
    ensures asked[|asked| - 1] == s ==> |heard| == |asked|
  {
    AnswersToPings(asked);
  }

  /** What a ping makes of anything but a message. */
  function PingError(n: Next): Option<V.ConnectError> {
    match n
    case Msg(_) => None
    case Malformed => Some(V.Security("malformed control"))
    case Closed => Some(V.HostIsGone)
    case TimedOut => Some(V.Expired(PingStage))
    case NextFailed => Some(V.TransportError)
  }

  class ViewerSession {
    const host: PeerIdentity
    const ch: ControlChannel
    var nextSeq: nat
    /** What had been sent before the first ping, and the numbers of the pings sent. */
    ghost const before: seq<Control>
    ghost var asked: seq<nat>
    /** How much had been heard before the first ping. */
    ghost const from: nat

    ghost predicate Valid()
      reads this, ch, ch.peer
    {
      && ch.Valid() && ch.peer.sent == before + PingsFor(asked) && Increasing(asked, nextSeq)
      && from <= |ch.returned|
    }

    /** Everything heard since the session began. */
    ghost function Heard(): seq<Packet>
      reads this, ch, ch.peer
      requires Valid()
    {
      ch.returned[from..]
    }

    constructor (host: PeerIdentity, ch: ControlChannel)
      requires ch.Valid()
      ensures Valid() && this.ch == ch && this.host == host && nextSeq == 0 && asked == []
    {
      this.host, this.ch, nextSeq := host, ch, 0;
      before, asked, from := ch.peer.sent, [], |ch.returned|;
      new;
      assert ch.peer.sent + [] == ch.peer.sent;
    }

    /**
     Sends a ping with a number never used before and measures the time to the first pong with that number;
     late answers to earlier pings are passed over. If all that was heard are answers in order, then a time
     means that every ping has been answered, and no late answer is left to come. The time is that from sending the
     ping to the return.
     */
    method Ping(timeout: nat) returns (r: Result<nat, V.ConnectError>, ghost heard: seq<Packet>)
      requires Valid()
      modifies this, ch, ch.peer, ch.peer.clock
      ensures Valid() && nextSeq == old(nextSeq) + 1 && ch.localClosed == old(ch.localClosed)
      ensures asked == old(asked) || asked == old(asked) + [old(nextSeq)]
      ensures ch.returned == old(ch.returned) + heard
      ensures r.Ok? <==> EndsWithPong(heard, old(nextSeq))
      ensures r.Ok? ==> asked == old(asked) + [old(nextSeq)]
      ensures asked == old(asked) ==> r == Err(V.TransportError) && heard == [] && ch.results == old(ch.results)
      ensures ch.peer.tries == old(ch.peer.tries) + [asked != old(asked)]
      ensures r.Ok? ==> r.value == ch.peer.clock.now - ch.peer.triedAt && ch.peer.triedAt >= old(ch.peer.clock.now)
      ensures r.Err? && asked != old(asked) ==>
                |ch.results| > |old(ch.results)| && Some(r.error) == PingError(ch.results[|ch.results| - 1])
      ensures r == Err(V.Expired(PingStage)) ==> ch.peer.clock.now >= old(ch.peer.clock.now) + timeout
      ensures r.Ok? && AnsweredInOrder(asked, Heard()) ==> |Heard()| == |asked|
    {
      heard := [];
      var s := nextSeq;
      nextSeq := nextSeq + 1;
      var start := ch.peer.clock.Read();
      var deadline := start + timeout;
      var sent := ch.SendControl(Protocol.Ping(s));
      if !sent { return Err(V.TransportError), []; }
      asked := asked + [s];
      assert PingsFor(asked) == PingsFor(old(asked)) + [Protocol.Ping(s)];
      var err: Option<V.ConnectError>;
      err, heard := AwaitPong(s, deadline);
      if err.Some? { return Err(err.value), heard; }
      assert Heard()[|Heard()| - 1] == heard[|heard| - 1];
      AllAnswered(s);
      var now := ch.peer.clock.Read();
      return Ok(now - start), heard;
    }

    lemma AllAnswered(s: nat)
      requires Valid() && asked != [] && asked[|asked| - 1] == s
      requires Heard() != [] && Heard()[|Heard()| - 1] == Encoded(Pong(s))
      ensures AnsweredInOrder(asked, Heard()) ==> |Heard()| == |asked|
    {
      if AnsweredInOrder(asked, Heard()) { PingHearsItsOwnAnswer(asked, nextSeq, Heard(), s); }
    }

    /** Waits for the pong with this number. */
    method AwaitPong(s: nat, deadline: nat) returns (err: Option<V.ConnectError>, ghost heard: seq<Packet>)
      requires ch.Valid()
      modifies ch, ch.peer, ch.peer.clock
      ensures ch.Valid() && ch.returned == old(ch.returned) + heard && ch.localClosed == old(ch.localClosed)
      ensures ch.peer.sent == old(ch.peer.sent) && ch.peer.clock.now >= old(ch.peer.clock.now)
      ensures err.None? <==> EndsWithPong(heard, s)
      ensures err == Some(V.Expired(PingStage)) ==> ch.peer.clock.now >= deadline
      ensures ch.peer.tries == old(ch.peer.tries) && ch.peer.triedAt == old(ch.peer.triedAt)
      ensures |ch.results| > |old(ch.results)| && err == PingError(ch.results[|ch.results| - 1])
    {
      heard := [];
      while true
        invariant ch.Valid() && ch.returned == old(ch.returned) + heard && ch.localClosed == old(ch.localClosed)
        invariant ch.peer.sent == old(ch.peer.sent) && ch.peer.clock.now >= old(ch.peer.clock.now)
        invariant forall i :: 0 <= i < |heard| ==> heard[i].Encoded? && heard[i].c != Pong(s)
        invariant |ch.results| >= |old(ch.results)|
        invariant ch.peer.tries == old(ch.peer.tries) && ch.peer.triedAt == old(ch.peer.triedAt)
        decreases ch.Outstanding()
      {
        ghost var was := ch.returned;
        var n, _ := ch.NextControl(deadline);
        if n.Msg? || n.Malformed? {
          assert ch.returned == was + [ch.returned[|was|]];
          heard := heard + [ch.returned[|was|]];
        }
        match n {
          case Msg(c) => if c == Pong(s) { return None, heard; }
          case Malformed => return Some(V.Security("malformed control")), heard;
          case Closed => return Some(V.HostIsGone), heard;
          case TimedOut => return Some(V.Expired(PingStage)), heard;
          case NextFailed => return Some(V.TransportError), heard;
        }
      }
    }
  }
}
