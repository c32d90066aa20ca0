/**
 The sealed messages of one session, one counter for each direction.

 ChaCha20-Poly1305 (section 2.8 of RFC 8439) is idealised: a ciphertext is a term that names its key, nonce,
 label and plaintext, and only those who hold a key make terms with it.
 */
module SealedChannel {
  import opened Wrappers
  import opened Bytes

  type Key = seq<byte>

  datatype Ciphertext = Box(key: Key, nonce: seq<byte>, aad: seq<byte>, plaintext: seq<byte>) | Junk(bytes: seq<byte>)

  /** `TooShort`: less than a counter and a tag. */
  datatype Message = TooShort | Message(counter: seq<byte>, body: Ciphertext)

  const COUNTER_BYTES := 8

  function Decrypt(key: Key, nonce: seq<byte>, aad: seq<byte>, c: Ciphertext): Option<seq<byte>> {
    if c.Box? && c == Box(key, nonce, aad, c.plaintext) then Some(c.plaintext) else None
  }

  function NonceFor(counter: nat): (n: seq<byte>)
    ensures |n| == 12
  {
    [0, 0, 0, 0] + BigEndian(counter, COUNTER_BYTES)
  }

  lemma NoncesDiffer(i: nat, j: nat)
    requires i < U64_LIMIT && j < U64_LIMIT && NonceFor(i) == NonceFor(j)
    ensures i == j
  {
    assert NonceFor(i)[4..] == BigEndian(i, COUNTER_BYTES) && NonceFor(j)[4..] == BigEndian(j, COUNTER_BYTES);
    Pow256Of8();
    BigEndianRoundTrip(i, COUNTER_BYTES);
    BigEndianRoundTrip(j, COUNTER_BYTES);
  }

  /** One end of one direction: its key and label, and how many messages it has sealed or opened. */
  datatype Half = Half(key: Key, aad: seq<byte>, counter: nat)

  function SealedAs(h: Half, counter: nat, plaintext: seq<byte>): Message {
    Message(BigEndian(counter, COUNTER_BYTES), Box(h.key, NonceFor(counter), h.aad, plaintext))
  }

  /** The last counter is never used up: sealing or opening with it is a panic, which gives no message. */
  predicate Exhausted(h: Half) { h.counter + 1 >= U64_LIMIT }

  datatype Opened = Plain(plaintext: seq<byte>) | BadSeal | Panicked

  predicate Fits(h: Half, m: Message) {
    && m.Message? && |m.counter| == COUNTER_BYTES
    && FromBigEndian(m.counter) == h.counter
    && Decrypt(h.key, NonceFor(h.counter), h.aad, m.body).Some?
  }

  function Open(h: Half, m: Message): (Opened, Half) {
    if !Fits(h, m) then (BadSeal, h)
    else if Exhausted(h) then (Panicked, h)
    else (Plain(m.body.plaintext), h.(counter := h.counter + 1))
  }

  class SealedSender {
    const key: Key
    const aad: seq<byte>
    var counter: nat

    function State(): Half
      reads this
    {
      Half(key, aad, counter)
    }

    constructor (key: Key, aad: seq<byte>)
      ensures State() == Half(key, aad, 0)
    {
      this.key, this.aad, counter := key, aad, 0;
    }

    method Seal(plaintext: seq<byte>) returns (m: Option<Message>)
      modifies this
      ensures if Exhausted(old(State())) then m.None? && State() == old(State())
              else m == Some(SealedAs(old(State()), old(counter), plaintext))
                   && State() == old(State()).(counter := old(counter) + 1)
    {
      var nonce := NonceFor(counter);
      var ciphertext := Box(key, nonce, aad, plaintext);
      var out := Message(BigEndian(counter, COUNTER_BYTES), ciphertext);
      if counter + 1 >= U64_LIMIT { return None; }
      counter := counter + 1;
      return Some(out);
    }
  }

  class SealedReceiver {
    const key: Key
    const aad: seq<byte>
    var expectedCounter: nat

    function State(): Half
      reads this
    {
      Half(key, aad, expectedCounter)
    }

    constructor (key: Key, aad: seq<byte>)
      ensures State() == Half(key, aad, 0)
    {
      this.key, this.aad, expectedCounter := key, aad, 0;
    }

    method OpenMessage(m: Message) returns (r: Opened)
      modifies this
      ensures (r, State()) == Open(old(State()), m)
      ensures !r.Plain? ==> State() == old(State())
    {
      if m.TooShort? || |m.counter| != COUNTER_BYTES { return BadSeal; }
      var counter := FromBigEndian(m.counter);
      if counter != expectedCounter { return BadSeal; }
      var plaintext := Decrypt(key, NonceFor(counter), aad, m.body);
      if plaintext.None? { return BadSeal; }
      if expectedCounter + 1 >= U64_LIMIT { return Panicked; }
      expectedCounter := expectedCounter + 1;
      return Plain(plaintext.value);
    }
  }

  datatype SessionKeys = SessionKeys(viewerToHost: Key, hostToViewer: Key)

  const V2H: seq<byte> := Ascii("v2h")
  const H2V: seq<byte> := Ascii("h2v")

  method ViewerSide(k: SessionKeys) returns (sender: SealedSender, receiver: SealedReceiver)
    ensures fresh(sender) && fresh(receiver)
    ensures sender.State() == Half(k.viewerToHost, V2H, 0) && receiver.State() == Half(k.hostToViewer, H2V, 0)
  {
    sender := new SealedSender(k.viewerToHost, V2H);
    receiver := new SealedReceiver(k.hostToViewer, H2V);
  }

  method HostSide(k: SessionKeys) returns (sender: SealedSender, receiver: SealedReceiver)
    ensures fresh(sender) && fresh(receiver)
    ensures sender.State() == Half(k.hostToViewer, H2V, 0) && receiver.State() == Half(k.viewerToHost, V2H, 0)
  {
    sender := new SealedSender(k.hostToViewer, H2V);
    receiver := new SealedReceiver(k.viewerToHost, V2H);
  }

  // Whole sessions, with someone in the middle.

  /** One direction: its two ends, what was sealed and what was opened. */
  datatype Lane = Lane(sender: Half, receiver: Half, sealed: seq<seq<byte>>, unsealed: seq<seq<byte>>)

  /** `wire` are all messages either side has sealed. */
  datatype Session = Session(up: Lane, down: Lane, wire: seq<Message>)

  /** `up` is from the viewer to the host. */
  datatype Event = Seals(up: bool, plaintext: seq<byte>) | Delivers(up: bool, m: Message)

  function NewLane(key: Key, aad: seq<byte>): Lane { Lane(Half(key, aad, 0), Half(key, aad, 0), [], []) }

  function Start(k: SessionKeys): Session { Session(NewLane(k.viewerToHost, V2H), NewLane(k.hostToViewer, H2V), []) }

  function LaneOf(s: Session, up: bool): Lane { if up then s.up else s.down }

  function WithLane(s: Session, up: bool, l: Lane): Session { if up then s.(up := l) else s.(down := l) }

  function Step(s: Session, e: Event): Session {
    var l := LaneOf(s, e.up);
    match e
    case Seals(up, plaintext) =>
      if Exhausted(l.sender) then s
      else
        var m := SealedAs(l.sender, l.sender.counter, plaintext);
        WithLane(s, up, l.(sender := l.sender.(counter := l.sender.counter + 1), sealed := l.sealed + [plaintext]))
          .(wire := s.wire + [m])
    case Delivers(up, m) =>
      var (r, receiver) := Open(l.receiver, m);
      WithLane(s, up, l.(receiver := receiver, unsealed := if r.Plain? then l.unsealed + [r.plaintext] else l.unsealed))
  }

  /** Anything may be delivered in either direction, any number of times, but no one else makes boxes. */
  predicate Possible(s: Session, e: Event) {
    e.Delivers? && e.m.Message? && e.m.body.Box? ==> exists w :: w in s.wire && w.Message? && w.body == e.m.body
  }

  function Run(s: Session, events: seq<Event>): Session {
    if events == [] then s else Step(Run(s, events[..|events| - 1]), events[|events| - 1])
  }

  predicate PossibleRun(s: Session, events: seq<Event>) {
    events != [] ==>
      && PossibleRun(s, events[..|events| - 1])
      && Possible(Run(s, events[..|events| - 1]), events[|events| - 1])
  }

  predicate LaneSound(l: Lane) {
    && l.sender == l.receiver.(counter := |l.sealed|)
    && l.receiver.counter == |l.unsealed|
    && l.unsealed <= l.sealed && |l.sealed| < U64_LIMIT
  }

  /** `m` is the message the lane sealed with counter `i`. */
  predicate FromLane(l: Lane, m: Message, i: nat) { i < |l.sealed| && m == SealedAs(l.sender, i, l.sealed[i]) }

  ghost predicate Sound(s: Session) {
    && LaneSound(s.up) && LaneSound(s.down) && s.up.sender.aad == V2H && s.down.sender.aad == H2V
    && forall m :: m in s.wire ==> (exists up, i :: FromLane(LaneOf(s, up), m, i))
  }

  lemma LabelsDiffer()
    ensures V2H != H2V
  {
    assert V2H[0] == 'v' as int % 128 && H2V[0] == 'h' as int % 128;
  }

  lemma SealingKeepsSound(s: Session, e: Event)
    requires Sound(s) && e.Seals?
    ensures Sound(Step(s, e))
  {
    var s' := Step(s, e);
    if s' != s {
      forall m | m in s'.wire ensures exists up, i :: FromLane(LaneOf(s', up), m, i) {
        if m in s.wire {
          var up, i :| FromLane(LaneOf(s, up), m, i);
          assert FromLane(LaneOf(s', up), m, i);
        } else {
          assert FromLane(LaneOf(s', e.up), m, |LaneOf(s, e.up).sealed|);
        }
      }
    }
  }

  /** A box that a receiver can decrypt is the one its own sender sealed next. */
  lemma FittingIsNext(s: Session, up: bool, m: Message)
    requires Sound(s) && Possible(s, Delivers(up, m)) && Fits(LaneOf(s, up).receiver, m)
    ensures FromLane(LaneOf(s, up), m, LaneOf(s, up).receiver.counter)
  {
    var l := LaneOf(s, up);
    var w :| w in s.wire && w.Message? && w.body == m.body;
    var up', i :| FromLane(LaneOf(s, up'), w, i);
    LabelsDiffer();
    NoncesDiffer(i, l.receiver.counter);
    FromBigEndianRoundTrip(m.counter);
  }

  lemma PrefixGrows<T>(s: seq<T>, t: seq<T>)
    requires s <= t && |s| < |t|
    ensures s + [t[|s|]] <= t
  {
  }

  lemma OpeningKeepsLaneSound(s: Session, up: bool, m: Message)
    requires Sound(s) && Possible(s, Delivers(up, m))
    ensures
      var (l, l') := (LaneOf(s, up), LaneOf(Step(s, Delivers(up, m)), up));
      LaneSound(l') && l'.sender == l.sender && l'.sealed == l.sealed
  {
    var l := LaneOf(s, up);
    if Fits(l.receiver, m) {
      FittingIsNext(s, up, m);
      PrefixGrows(l.unsealed, l.sealed);
    }
  }

  lemma DeliveringKeepsSound(s: Session, e: Event)
    requires Sound(s) && e.Delivers? && Possible(s, e)
    ensures Sound(Step(s, e))
  {
    OpeningKeepsLaneSound(s, e.up, e.m);
    var s' := Step(s, e);
    forall m | m in s'.wire ensures exists up, i :: FromLane(LaneOf(s', up), m, i) {
      var up, i :| FromLane(LaneOf(s, up), m, i);
      assert FromLane(LaneOf(s', up), m, i);
    }
  }

  lemma {:induction false} SessionsAreSound(k: SessionKeys, events: seq<Event>)
    requires PossibleRun(Start(k), events)
    ensures Sound(Run(Start(k), events))
    decreases |events|
  {
    if events != [] {
      var front := events[..|events| - 1];
      SessionsAreSound(k, front);
      if events[|events| - 1].Seals? {
        SealingKeepsSound(Run(Start(k), front), events[|events| - 1]);
      } else {
        DeliveringKeepsSound(Run(Start(k), front), events[|events| - 1]);
      }
    }
  }

  /**
   In either direction, whatever is delivered and in whatever order: the plaintexts opened are the first ones
   sealed, in order, none missing, repeated or from the other direction, even if both keys are the same.
   */
  lemma OpenedIsAPrefixOfSealed(k: SessionKeys, events: seq<Event>, up: bool)
    requires PossibleRun(Start(k), events)
    ensures LaneOf(Run(Start(k), events), up).unsealed <= LaneOf(Run(Start(k), events), up).sealed
  {
    SessionsAreSound(k, events);
  }

  /** A delivery opens if and only if it is, unaltered, the message its sender sealed next after those opened. */
  lemma OpensExactlyTheNext(k: SessionKeys, events: seq<Event>, up: bool, m: Message)
    requires PossibleRun(Start(k), events + [Delivers(up, m)])
    ensures
      var l := LaneOf(Run(Start(k), events), up);
      Open(l.receiver, m).0.Plain? <==>
      (|l.unsealed| < |l.sealed| && m == SealedAs(l.sender, |l.unsealed|, l.sealed[|l.unsealed|]))
  {
    assert (events + [Delivers(up, m)])[..|events|] == events;
    SessionsAreSound(k, events);
    var s := Run(Start(k), events);
    var l := LaneOf(s, up);
    if Fits(l.receiver, m) { FittingIsNext(s, up, m); }
    if |l.unsealed| < |l.sealed| && m == SealedAs(l.sender, |l.unsealed|, l.sealed[|l.unsealed|]) {
      Pow256Of8();
      BigEndianRoundTrip(l.receiver.counter, COUNTER_BYTES);
    }
  }

  /** What was to be sealed in one direction. */
  function ToSeal(events: seq<Event>, up: bool): seq<seq<byte>> {
    if events == [] then []
    else
      var (front, e) := (events[..|events| - 1], events[|events| - 1]);
      ToSeal(front, up) + (if e.Seals? && e.up == up then [e.plaintext] else [])
  }

  lemma {:induction false} SealsAtMostOnce(k: SessionKeys, events: seq<Event>, up: bool)
    ensures LaneOf(Run(Start(k), events), up).sender.counter <= |events|
    decreases |events|
  {
    if events != [] { SealsAtMostOnce(k, events[..|events| - 1], up); }
  }

  /**
   Up to the last counter, which takes 2^64 - 1 messages to reach, everything that is to be sealed is, in order and
   with counters from zero on.
   */
  lemma {:induction false} EverythingIsSealed(k: SessionKeys, events: seq<Event>, up: bool)
    requires |events| < 0xFFFF_FFFF_FFFF_FFFF
    ensures
      var l := LaneOf(Run(Start(k), events), up);
      l.sealed == ToSeal(events, up) && l.sender.counter == |l.sealed|
    decreases |events|
  {
    if events != [] {
      var front := events[..|events| - 1];
      EverythingIsSealed(k, front, up);
      SealsAtMostOnce(k, front, up);
    }
  }

  predicate SameNonce(a: Message, b: Message) {
    && a.Message? && b.Message? && a.body.Box? && b.body.Box?
    && a.body.key == b.body.key && a.body.aad == b.body.aad && a.body.nonce == b.body.nonce
  }

  lemma NewNonceIsFresh(s: Session, up: bool, plaintext: seq<byte>, m: Message)
    requires Sound(s) && m in s.wire && !Exhausted(LaneOf(s, up).sender)
    ensures !SameNonce(m, SealedAs(LaneOf(s, up).sender, LaneOf(s, up).sender.counter, plaintext))
  {
    var c := LaneOf(s, up).sender.counter;
    var up', i :| FromLane(LaneOf(s, up'), m, i);
    LabelsDiffer();
    if NonceFor(i) == NonceFor(c) { NoncesDiffer(i, c); }
  }

  /** Two messages of a session never share key, label and nonce. */
  lemma {:induction false} NoNonceIsReused(k: SessionKeys, events: seq<Event>, i: nat, j: nat)
    requires PossibleRun(Start(k), events)
    requires i < j < |Run(Start(k), events).wire|
    ensures !SameNonce(Run(Start(k), events).wire[i], Run(Start(k), events).wire[j])
    decreases |events|
  {
    var (front, last) := (events[..|events| - 1], events[|events| - 1]);
    var s := Run(Start(k), front);
    if j < |s.wire| {
      NoNonceIsReused(k, front, i, j);
    } else {
      SessionsAreSound(k, front);
      NewNonceIsFresh(s, last.up, last.plaintext, s.wire[i]);
    }
  }
}
