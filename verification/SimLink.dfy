/**
 One direction of a simulated network path: loss, a bottleneck with a bounded queue, latency, FIFO delivery.

 Times are real seconds. `Path` is the link's state as a value, class `Link` the object the simulation keeps.
 */
module SimLink {
  import opened Wrappers

  /** `size` is the payload in bytes. */
  datatype Packet = Packet(serial: nat, size: nat)

  datatype Stats = Stats(sent: nat, delivered: nat, droppedLoss: nat, droppedQueue: nat, droppedBlocked: nat)

  const IP_UDP_OVERHEAD := 28

  type Positive = n: nat | n > 0 witness 1

  datatype Path = Path(
    latency: real, rate: Option<Positive>, limit: nat, dropEvery: Option<Positive>,
    lossCounter: nat, busyUntil: Option<real>, inFlight: seq<(real, Packet)>, stats: Stats)

  function Later(a: real, b: real): real { if a < b then b else a }

  /** Bytes on the wire. */
  function WireSize(p: Packet): nat { p.size + IP_UDP_OVERHEAD }

  /** Seconds it takes to send `bytes` at `rate` bits a second. */
  function TxTime(bytes: nat, rate: Positive): real { bytes as real * 8.0 / rate as real }

  /** When a packet entering now starts to be sent. */
  function StartAt(l: Path, now: real): real {
    if l.busyUntil.None? then now else Later(l.busyUntil.value, now)
  }

  /** The bytes that take `wait` seconds to send. */
  function Backlog(wait: real, rate: Positive): real { wait * rate as real / 8.0 }

  predicate Overflows(l: Path, now: real, p: Packet, rate: Positive) {
    Backlog(StartAt(l, now) - now, rate) + WireSize(p) as real > l.limit as real
  }

  function Enqueue(l: Path, depart: real, p: Packet): Path {
    var due := depart + l.latency;
    l.(inFlight := l.inFlight + [(if l.inFlight == [] then due else Later(due, l.inFlight[|l.inFlight| - 1].0), p)])
  }

  function Push(l0: Path, now: real, p: Packet): Path {
    var l1 := l0.(stats := l0.stats.(sent := l0.stats.sent + 1),
                  lossCounter := if l0.dropEvery.Some? then l0.lossCounter + 1 else l0.lossCounter);
    if l1.dropEvery.Some? && l1.lossCounter % l1.dropEvery.value == 0 then
      l1.(stats := l1.stats.(droppedLoss := l1.stats.droppedLoss + 1))
    else
      match l1.rate
      case None => Enqueue(l1, now, p)
      case Some(rate) =>
        if Overflows(l1, now, p, rate) then l1.(stats := l1.stats.(droppedQueue := l1.stats.droppedQueue + 1))
        else
          var depart := StartAt(l1, now) + TxTime(WireSize(p), rate);
          Enqueue(l1.(busyUntil := Some(depart)), depart, p)
  }

  predicate Ordered(q: seq<(real, Packet)>) { forall i, j :: 0 <= i < j < |q| ==> q[i].0 <= q[j].0 }

  lemma EnqueueKeepsOrder(l: Path, depart: real, p: Packet)
    requires Ordered(l.inFlight)
    ensures Ordered(Enqueue(l, depart, p).inFlight)
  {
  }

  lemma PushKeepsOrder(l: Path, now: real, p: Packet)
    requires Ordered(l.inFlight)
    ensures Ordered(Push(l, now, p).inFlight)
  {
    EnqueueKeepsOrder(l, now, p);
    if l.rate.Some? { EnqueueKeepsOrder(l, StartAt(l, now) + TxTime(WireSize(p), l.rate.value), p); }
  }

  function PopDue(l: Path, now: real): (Option<Packet>, Path) {
    if l.inFlight != [] && l.inFlight[0].0 <= now then
      (Some(l.inFlight[0].1),
       l.(inFlight := l.inFlight[1..], stats := l.stats.(delivered := l.stats.delivered + 1)))
    else (None, l)
  }

  function QueueDelay(l: Path, now: real): real {
    if l.busyUntil.None? then 0.0 else Later(l.busyUntil.value - now, 0.0)
  }

  predicate Free(busyUntil: Option<real>, t: real) { busyUntil.Some? ==> t >= busyUntil.value }

  /** A packet from or to a blocked address never enters the link, but counts as sent. */
  function Block(l: Path): Path {
    l.(stats := l.stats.(sent := l.stats.sent + 1, droppedBlocked := l.stats.droppedBlocked + 1))
  }

  class Link {
    var latency: real
    var rate: Option<Positive>
    var limit: nat
    var dropEvery: Option<Positive>
    var lossCounter: nat
    var busyUntil: Option<real>
    var inFlight: seq<(real, Packet)>
    var stats: Stats

    function State(): Path
      reads this
    {
      Path(latency, rate, limit, dropEvery, lossCounter, busyUntil, inFlight, stats)
    }

    /** What is in flight is due in order. */
    ghost predicate Valid()
      reads this
    {
      Ordered(inFlight)
    }

    constructor ()
      ensures Valid() && State() == NewPath()
    {
      latency, rate, limit, dropEvery, lossCounter, busyUntil, inFlight := 0.0, None, 0, None, 0, None, [];
      stats := Stats(0, 0, 0, 0, 0);
    }

    method Send(now: real, p: Packet)
      requires Valid()
      modifies this
      ensures Valid() && State() == Push(old(State()), now, p)
    {
      stats := stats.(sent := stats.sent + 1);
      if dropEvery.Some? {
        lossCounter := lossCounter + 1;
        if lossCounter % dropEvery.value == 0 {
          stats := stats.(droppedLoss := stats.droppedLoss + 1);
          return;
        }
      }
      var depart := now;
      if rate.Some? {
        var start := now;
        if busyUntil.Some? { start := Later(busyUntil.value, now); }
        var backlogBytes := Backlog(start - now, rate.value);
        var size := p.size + IP_UDP_OVERHEAD;
        if backlogBytes + size as real > limit as real {
          stats := stats.(droppedQueue := stats.droppedQueue + 1);
          return;
        }
        var tx := TxTime(size, rate.value);
        busyUntil := Some(start + tx);
        depart := start + tx;
      }
      Append(depart, p);
    }

    /** Adds a packet behind the others, not due before the last of them even if the latency was lowered. */
    method Append(depart: real, p: Packet)
      requires Valid()
      modifies this`inFlight
      ensures Valid() && State() == Enqueue(old(State()), depart, p)
    {
      EnqueueKeepsOrder(State(), depart, p);
      var due := depart + latency;
      if inFlight != [] { due := Later(due, inFlight[|inFlight| - 1].0); }
      inFlight := inFlight + [(due, p)];
    }

    /** The earliest time at which anything in flight is due. */
    method NextDue() returns (t: Option<real>)
      requires Valid()
      ensures t.None? <==> inFlight == []
      ensures t.Some? ==>
                && (exists i :: 0 <= i < |inFlight| && inFlight[i].0 == t.value)
                && forall i :: 0 <= i < |inFlight| ==> t.value <= inFlight[i].0
    {
      return if inFlight == [] then None else Some(inFlight[0].0);
    }

    method Deliver(now: real) returns (p: Option<Packet>)
      requires Valid()
      modifies this
      ensures Valid() && (p, State()) == PopDue(old(State()), now)
      ensures p.None? <==> forall i :: 0 <= i < |old(inFlight)| ==> old(inFlight)[i].0 > now
      ensures p.Some? ==> old(inFlight)[0].0 <= now && p.value == old(inFlight)[0].1 && inFlight == old(inFlight)[1..]
    {
      var next := NextDue();
      if next.None? || next.value > now { return None; }
      stats := stats.(delivered := stats.delivered + 1);
      p := Some(inFlight[0].1);
      inFlight := inFlight[1..];
    }

    /** How long a packet entering now would wait at the bottleneck: the least time after which that is free. */
    method DelayAt(now: real) returns (d: real)
      ensures d == QueueDelay(State(), now)
      ensures d >= 0.0 && forall t: real :: t >= now ==> (Free(busyUntil, t) <==> t >= now + d)
    {
      if busyUntil.None? || busyUntil.value <= now { return 0.0; }
      return busyUntil.value - now;
    }

    method Refuse()
      requires Valid()
      modifies this
      ensures Valid() && State() == Block(old(State()))
      ensures stats == old(stats).(sent := old(stats).sent + 1, droppedBlocked := old(stats).droppedBlocked + 1)
      ensures State() == old(State()).(stats := stats)
    {
      stats := stats.(sent := stats.sent + 1);
      stats := stats.(droppedBlocked := stats.droppedBlocked + 1);
    }
  }

  function NewPath(): Path { Path(0.0, None, 0, None, 0, None, [], Stats(0, 0, 0, 0, 0)) }

  // Whole runs.

  datatype Event =
    | Pushes(now: real, p: Packet)
    | Blocks
    | Pops(now: real)
    | Adjusts(latency: real, rate: Option<Positive>, limit: nat, dropEvery: Option<Positive>)

  /**
   A link with what it has let in and what it has delivered; `taken` are all of it with their due times, `at` the
   times of delivery.
   */
  datatype History = History(l: Path, taken: seq<(real, Packet)>, delivered: seq<Packet>, at: seq<real>)

  function Step(h: History, e: Event): History {
    match e
    case Pushes(now, p) =>
      var l := Push(h.l, now, p);
      h.(l := l, taken := h.taken + l.inFlight[|h.l.inFlight|..])
    case Blocks => h.(l := Block(h.l))
    case Pops(now) =>
      var (p, l) := PopDue(h.l, now);
      h.(l := l, delivered := h.delivered + (if p.Some? then [p.value] else []),
         at := h.at + (if p.Some? then [now] else []))
    case Adjusts(latency, rate, limit, dropEvery) =>
      h.(l := h.l.(latency := latency, rate := rate, limit := limit, dropEvery := dropEvery))
  }

  function Run(l: Path, events: seq<Event>): History {
    if events == [] then History(l, [], [], [])
    else Step(Run(l, events[..|events| - 1]), events[|events| - 1])
  }

  function Packets(q: seq<(real, Packet)>): (r: seq<Packet>)
    ensures |r| == |q|
  {
    seq(|q|, i requires 0 <= i < |q| => q[i].1)
  }

  /** Nothing vanishes, nothing overtakes: what was taken in was delivered in order, or is in flight. */
  predicate Conserved(h: History) {
    var s := h.l.stats;
    && s.sent == s.delivered + s.droppedLoss + s.droppedQueue + s.droppedBlocked + |h.l.inFlight|
    && s.delivered == |h.delivered| <= |h.taken|
    && h.l.inFlight == h.taken[|h.delivered|..]
    && h.delivered == Packets(h.taken[..|h.delivered|])
  }

  /** Nothing was delivered before it was due. */
  predicate NothingEarly(h: History) {
    |h.at| == |h.delivered| <= |h.taken| && forall i :: 0 <= i < |h.at| ==> h.taken[i].0 <= h.at[i]
  }

  lemma StepConserves(h: History, e: Event)
    requires Conserved(h)
    ensures Conserved(Step(h, e)) && h.taken <= Step(h, e).taken && h.delivered <= Step(h, e).delivered
  {
    var h' := Step(h, e);
    match e
    case Pushes(now, p) =>
      assert h'.taken[..|h.delivered|] == h.taken[..|h.delivered|];
      assert h'.l.inFlight == h.l.inFlight + h'.l.inFlight[|h.l.inFlight|..];
    case Pops(now) =>
      if h' != h {
        var n := |h.delivered|;
        assert h.taken[n..][0] == h.taken[n];
        assert h.taken[..n + 1] == h.taken[..n] + [h.taken[n]];
        assert h.taken[n..][1..] == h.taken[n + 1..];
        assert Packets(h.taken[..n + 1]) == Packets(h.taken[..n]) + [h.taken[n].1];
      }
    case Blocks =>
    case Adjusts(_, _, _, _) =>
  }

  /**
   In every run, whatever is changed while it lasts: each packet sent was delivered, dropped for one reason, or
   is in flight, and delivery is in the order of arrival.
   */
  lemma {:induction false} NothingVanishes(events: seq<Event>)
    ensures Conserved(Run(NewPath(), events))
    decreases |events|
  {
    if events != [] {
      NothingVanishes(events[..|events| - 1]);
      StepConserves(Run(NewPath(), events[..|events| - 1]), events[|events| - 1]);
    }
  }

  lemma StepKeepsPunctual(h: History, e: Event)
    requires Conserved(h) && NothingEarly(h)
    ensures NothingEarly(Step(h, e))
  {
    StepConserves(h, e);
    if e.Pops? && Step(h, e) != h {
      var n := |h.delivered|;
      assert h.l.inFlight[0] == h.taken[n];
    }
  }

  /**
   In every run, whatever is changed while it lasts: no packet is delivered before it is due, and whenever the link
   is asked and something is due, the packet that has been in flight longest is delivered, which is due.
   */
  lemma {:induction false} DeliveryIsPunctual(events: seq<Event>, now: real)
    ensures
      var (h, h') := (Run(NewPath(), events), Step(Run(NewPath(), events), Pops(now)));
      && Conserved(h) && NothingEarly(h)
      && (h'.delivered == h.delivered <==> forall i :: 0 <= i < |h.l.inFlight| ==> h.l.inFlight[i].0 > now)
      && (h'.delivered != h.delivered ==>
            h.l.inFlight[0].0 <= now && h'.delivered == h.delivered + [h.l.inFlight[0].1])
    decreases |events|
  {
    NothingVanishes(events);
    DueTimesAreOrdered(events);
    if events != [] {
      var front := events[..|events| - 1];
      NothingVanishes(front);
      DeliveryIsPunctual(front, now);
      StepKeepsPunctual(Run(NewPath(), front), events[|events| - 1]);
    }
    DueIsDelivered(Run(NewPath(), events), now);
  }

  lemma DueIsDelivered(h: History, now: real)
    requires Ordered(h.l.inFlight)
    ensures
      var h' := Step(h, Pops(now));
      && (h'.delivered == h.delivered <==> forall i :: 0 <= i < |h.l.inFlight| ==> h.l.inFlight[i].0 > now)
      && (h'.delivered != h.delivered ==>
            h.l.inFlight != [] && h.l.inFlight[0].0 <= now && h'.delivered == h.delivered + [h.l.inFlight[0].1])
  {
    var h' := Step(h, Pops(now));
    if h.l.inFlight != [] && h.l.inFlight[0].0 <= now { assert |h'.delivered| == |h.delivered| + 1; }
  }

  lemma StepKeepsOrder(h: History, e: Event)
    requires Ordered(h.l.inFlight)
    ensures Ordered(Step(h, e).l.inFlight)
  {
    if e.Pushes? { PushKeepsOrder(h.l, e.now, e.p); }
  }

  /** Due times in flight never decrease, even if the latency was lowered in between. */
  lemma {:induction false} DueTimesAreOrdered(events: seq<Event>)
    ensures Ordered(Run(NewPath(), events).l.inFlight)
    decreases |events|
  {
    if events != [] {
      DueTimesAreOrdered(events[..|events| - 1]);
      StepKeepsOrder(Run(NewPath(), events[..|events| - 1]), events[|events| - 1]);
    }
  }

  lemma QuotientIs(x: nat, q: nat, r: nat, n: Positive)
    requires x == q * n + r && r < n
    ensures x / n == q && x % n == r
  {
    var d := x / n - q;
    assert d * n == r - x % n;
    if d > 0 { TimesAtLeast(d, n); } else if d < 0 { TimesAtLeast(-d, n); }
  }

  lemma TimesAtLeast(k: int, n: Positive)
    requires k >= 1
    ensures k * n >= n
  {
  }

  lemma QuotientStep(c: nat, n: Positive)
    ensures (c + 1) / n == c / n + (if (c + 1) % n == 0 then 1 else 0)
  {
    var (q, r) := (c / n, c % n);
    if r == n - 1 {
      assert c + 1 == (q + 1) * n;
      QuotientIs(c + 1, q + 1, 0, n);
    } else {
      QuotientIs(c + 1, q, r + 1, n);
    }
  }

  /** How many packets entered. */
  function Entered(events: seq<Event>): nat {
    if events == [] then 0
    else Entered(events[..|events| - 1]) + (if events[|events| - 1].Pushes? then 1 else 0)
  }

  lemma StepKeepsLoss(h: History, e: Event, n: Positive)
    requires !e.Adjusts? && h.l.dropEvery == Some(n) && h.l.stats.droppedLoss == h.l.lossCounter / n
    ensures Step(h, e).l.dropEvery == Some(n) && Step(h, e).l.stats.droppedLoss == Step(h, e).l.lossCounter / n
    ensures Step(h, e).l.lossCounter == h.l.lossCounter + (if e.Pushes? then 1 else 0)
  {
    QuotientStep(h.l.lossCounter, n);
  }

  /** Left alone, a lossy link drops one of every `n` packets that enter it. */
  lemma {:induction false} LossIsEveryNth(l: Path, events: seq<Event>, n: Positive)
    requires l.dropEvery == Some(n) && l.lossCounter == 0 && l.stats.droppedLoss == 0
    requires forall i :: 0 <= i < |events| ==> !events[i].Adjusts?
    ensures Run(l, events).l.dropEvery == Some(n)
    ensures Run(l, events).l.lossCounter == Entered(events)
    ensures Run(l, events).l.stats.droppedLoss == Entered(events) / n
    decreases |events|
  {
    if events != [] {
      LossIsEveryNth(l, events[..|events| - 1], n);
      StepKeepsLoss(Run(l, events[..|events| - 1]), events[|events| - 1], n);
    }
  }

  // A bottleneck left alone.

  /** The times at which a link is used; the others do not look at the clock. */
  predicate Uses(e: Event) { e.Pushes? || e.Pops? }

  /** A run that leaves rate and limit alone, with a clock that does not go back. */
  predicate Steady(l: Path, events: seq<Event>) {
    && (forall i :: 0 <= i < |events| && events[i].Adjusts? ==> events[i].rate == l.rate && events[i].limit == l.limit)
    && forall i, j :: 0 <= i < j < |events| && Uses(events[i]) && Uses(events[j]) ==> events[i].now <= events[j].now
  }

  predicate NotBefore(events: seq<Event>, t: real) { forall e :: e in events && Uses(e) ==> e.now <= t }

  /** An empty link with a bottleneck. */
  predicate Fresh(l: Path) { l.rate.Some? && l.busyUntil.None? && l.inFlight == [] }

  /** What fits the queue in bytes fits it in time. */
  lemma FitsInTime(wait: real, bytes: nat, limit: nat, rate: Positive)
    requires Backlog(wait, rate) + bytes as real <= limit as real
    ensures wait + TxTime(bytes, rate) <= TxTime(limit, rate)
  {
    ScaledSum(wait, bytes as real, limit as real, rate as real);
  }

  /** What fits the queue in time fits it in bytes. */
  lemma FitsInBytes(wait: real, bytes: nat, limit: nat, rate: Positive)
    requires wait + TxTime(bytes, rate) <= TxTime(limit, rate)
    ensures Backlog(wait, rate) + bytes as real <= limit as real
  {
    Rescaled(wait, bytes as real, limit as real, rate as real);
  }

  lemma Rescaled(wait: real, size: real, limit: real, rate: real)
    requires rate > 0.0 && wait + size * 8.0 / rate <= limit * 8.0 / rate
    ensures wait * rate / 8.0 + size <= limit
  {
    var (x, y) := (size * 8.0 / rate, limit * 8.0 / rate);
    assert x * rate == size * 8.0 && y * rate == limit * 8.0;
    assert (wait + x) * rate <= y * rate;
    assert (wait + x) * rate == wait * rate + x * rate;
  }

  /** A packet is lost on the way in. */
  predicate Lost(l: Path) { l.dropEvery.Some? && (l.lossCounter + 1) % l.dropEvery.value == 0 }

  /** When a packet that enters now leaves the bottleneck. */
  function Departs(l: Path, now: real, p: Packet): real {
    match l.rate
    case None => now
    case Some(rate) => now + QueueDelay(l, now) + TxTime(p.size + 28, rate)
  }

  /**
   What becomes of a packet that enters: unless it is lost on the way in, it is taken in if and only if there is no
   bottleneck, or what waits there and the packet with its 28 bytes of headers take no longer than a full queue; and
   then it is due when it has left the bottleneck and the latency has passed, though not before the packet in front.
   */
  lemma TakenInExactly(l: Path, now: real, p: Packet)
    ensures
      var l' := Push(l, now, p);
      var fits := l.rate.None? || QueueDelay(l, now) + TxTime(p.size + 28, l.rate.value) <= TxTime(l.limit, l.rate.value);
      && l'.stats.sent == l.stats.sent + 1
      && l'.stats.droppedLoss == l.stats.droppedLoss + (if Lost(l) then 1 else 0)
      && l'.stats.droppedQueue == l.stats.droppedQueue + (if !Lost(l) && !fits then 1 else 0)
      && (if Lost(l) || !fits then l'.inFlight == l.inFlight
          else
            var due := Departs(l, now, p) + l.latency;
            l'.inFlight == l.inFlight + [(if l.inFlight == [] then due else Later(due, l.inFlight[|l.inFlight| - 1].0), p)])
  {
    if l.rate.Some? {
      var (rate, wait) := (l.rate.value, QueueDelay(l, now));
      assert StartAt(l, now) == now + wait;
      if Backlog(wait, rate) + WireSize(p) as real <= l.limit as real {
        FitsInTime(wait, WireSize(p), l.limit, rate);
      } else if wait + TxTime(WireSize(p), rate) <= TxTime(l.limit, rate) {
        FitsInBytes(wait, WireSize(p), l.limit, rate);
      }
    }
  }

  lemma ScaledSum(wait: real, size: real, limit: real, rate: real)
    requires rate > 0.0 && wait * rate / 8.0 + size <= limit
    ensures wait + size * 8.0 / rate <= limit * 8.0 / rate
  {
    var k := 8.0 / rate;
    assert k * rate == 8.0 && k > 0.0;
    var w := wait * rate / 8.0;
    assert w * k == wait by {
      assert w * 8.0 == wait * rate;
      assert w * k * rate == wait * rate;
    }
    assert (w + size) * k <= limit * k;
    assert size * k == size * 8.0 / rate && limit * k == limit * 8.0 / rate;
  }

  /** The `i`-th packet taken in leaves at least its own sending time after the one before. */
  predicate SpacedAt(taken: seq<(real, Packet)>, i: nat, rate: Positive)
    requires 0 < i < |taken|
  {
    taken[i].0 >= taken[i - 1].0 + TxTime(WireSize(taken[i].1), rate)
  }

  /** Packets leave at the rate, and the latest is due when the bottleneck is free and the latency has passed. */
  predicate Paced(h: History, rate: Positive) {
    && (forall i: nat :: 0 < i < |h.taken| ==> SpacedAt(h.taken, i, rate))
    && h.l.busyUntil == (if h.taken == [] then None else Some(h.taken[|h.taken| - 1].0 - h.l.latency))
    && (h.l.inFlight != [] ==> h.taken != [] && h.l.inFlight[|h.l.inFlight| - 1] == h.taken[|h.taken| - 1])
  }

  lemma PushKeepsDelay(l: Path, now: real, p: Packet)
    requires l.rate.Some? && QueueDelay(l, now) <= TxTime(l.limit, l.rate.value)
    ensures QueueDelay(Push(l, now, p), now) <= TxTime(l.limit, l.rate.value)
  {
    var rate := l.rate.value;
    var l1 := l.(stats := l.stats.(sent := l.stats.sent + 1),
                 lossCounter := if l.dropEvery.Some? then l.lossCounter + 1 else l.lossCounter);
    if !Overflows(l1, now, p, rate) {
      FitsInTime(StartAt(l1, now) - now, WireSize(p), l.limit, rate);
    }
  }

  lemma TxTimeIsNatural(bytes: nat, rate: Positive)
    ensures TxTime(bytes, rate) >= 0.0
  {
    var k := 8.0 / rate as real;
    assert bytes as real * k >= 0.0;
  }

  /** With a fixed rate and limit, whatever else is changed, the delay never exceeds what a full queue takes. */
  lemma {:induction false} DelayIsBounded(l: Path, events: seq<Event>, now: real)
    requires Fresh(l) && Steady(l, events) && NotBefore(events, now)
    ensures
      var end := Run(l, events).l;
      && end.rate == l.rate && end.limit == l.limit
      && QueueDelay(end, now) <= TxTime(l.limit, l.rate.value)
    decreases |events|
  {
    TxTimeIsNatural(l.limit, l.rate.value);
    if events != [] {
      var (front, last) := (events[..|events| - 1], events[|events| - 1]);
      assert last in events && forall e :: e in front ==> e in events;
      if last.Pushes? {
        forall e | e in front && Uses(e) ensures e.now <= last.now {
          var i :| 0 <= i < |front| && front[i] == e;
          assert events[i] == e;
        }
        DelayIsBounded(l, front, last.now);
        PushKeepsDelay(Run(l, front).l, last.now, last.p);
      } else {
        DelayIsBounded(l, front, now);
      }
    }
  }

  lemma PushKeepsPace(h: History, now: real, p: Packet, rate: Positive)
    requires h.l.rate == Some(rate) && Paced(h, rate)
    ensures Paced(Step(h, Pushes(now, p)), rate)
  {
    TxTimeIsNatural(WireSize(p), rate);
    var h' := Step(h, Pushes(now, p));
    if |h'.l.inFlight| > |h.l.inFlight| {
      var last := h'.l.inFlight[|h.l.inFlight|];
      assert h'.l.inFlight[|h.l.inFlight|..] == [last];
      assert last.0 == h'.l.busyUntil.value + h.l.latency;
      forall i: nat | 0 < i < |h'.taken| ensures SpacedAt(h'.taken, i, rate) {
        if i < |h.taken| { assert SpacedAt(h.taken, i, rate); }
      }
    } else {
      assert h'.taken == h.taken;
    }
  }

  lemma PopKeepsPace(h: History, now: real, rate: Positive)
    requires Paced(h, rate)
    ensures Paced(Step(h, Pops(now)), rate)
  {
  }

  lemma StepKeepsPace(h: History, e: Event, rate: Positive)
    requires !e.Adjusts? && h.l.rate == Some(rate) && Paced(h, rate)
    ensures Step(h, e).l.rate == Some(rate) && Paced(Step(h, e), rate)
  {
    match e
    case Pushes(now, p) => PushKeepsPace(h, now, p, rate);
    case Pops(now) => PopKeepsPace(h, now, rate);
    case Blocks =>
  }

  /**
   Undisturbed, packets come out of a bottleneck no faster than its rate: each is due at least its own sending
   time after the one before, and exactly the latency after the bottleneck let it go.
   */
  lemma {:induction false} DeparturesArePaced(l: Path, events: seq<Event>)
    requires Fresh(l) && forall i :: 0 <= i < |events| ==> !events[i].Adjusts?
    ensures Run(l, events).l.rate == l.rate && Paced(Run(l, events), l.rate.value)
    decreases |events|
  {
    if events != [] {
      DeparturesArePaced(l, events[..|events| - 1]);
      StepKeepsPace(Run(l, events[..|events| - 1]), events[|events| - 1], l.rate.value);
    }
  }
}
