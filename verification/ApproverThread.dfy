/**
 The approval question on the host's console. Reading a line blocks, so a second thread reads one line for
 each token it is sent; the main thread only looks whether an answer has come.

 `Shared` is what the two threads share; between any two steps of the main thread the reader may take any
 number of steps.
 */
module ApproverThread {
  import opened Wrappers

  /** A line of input with the time at which it was typed. */
  datatype Typed = Typed(line: string, at: nat)

  /** What was read, and when; `None` is the end of input or a read error. */
  datatype Answer = Answer(at: nat, typed: Option<Typed>)

  datatype Reader = Waiting | Busy | Gone

  /**
   `asks` are tokens not yet taken, `answers` those not yet received, `produced` all answers ever sent; `typed`
   are all lines ever typed, `lines` those read and `input` those not yet read.
   */
  datatype Shared = Shared(
    asks: nat, reader: Reader, answers: seq<Answer>, produced: seq<Answer>,
    typed: seq<Typed>, lines: seq<Typed>, input: seq<Typed>, now: nat)

  /** The reader takes a token, reads a line, finds the end of input, or dies; the user types a line; time passes. */
  datatype OtherStep = Takes | Reads | Ends | Dies | Types(line: string) | TimePasses(d: nat)

  function Produce(s: Shared, typed: Option<Typed>): Shared {
    var a := Answer(s.now, typed);
    s.(reader := Waiting, answers := s.answers + [a], produced := s.produced + [a],
       lines := if typed.Some? then s.lines + [typed.value] else s.lines)
  }

  function OthersDo(s: Shared, e: OtherStep): Shared {
    match e
    case Takes => if s.reader.Waiting? && s.asks > 0 then s.(asks := s.asks - 1, reader := Busy) else s
    case Reads => if s.reader.Busy? && s.input != [] then Produce(s, Some(s.input[0])).(input := s.input[1..]) else s
    case Ends => if s.reader.Busy? then Produce(s, None) else s
    case Dies => s.(reader := Gone)
    case Types(line) => s.(input := s.input + [Typed(line, s.now)], typed := s.typed + [Typed(line, s.now)])
    case TimePasses(d) => s.(now := s.now + d)
  }

  function Meanwhile(s: Shared, steps: seq<OtherStep>): Shared {
    if steps == [] then s
    else OthersDo(Meanwhile(s, steps[..|steps| - 1]), steps[|steps| - 1])
  }

  /** A line has been requested if and only if there is one token, one read or one answer, and never two. */
  predicate OneToken(s: Shared, reading: bool) {
    var n := |s.answers| + (if s.reader.Busy? then 1 else 0);
    if s.reader.Gone? then n <= (if reading then 1 else 0)
    else s.asks + n == if reading then 1 else 0
  }

  /** Every answer waiting was read at `since` or later. */
  predicate ReadSince(s: Shared, since: nat) {
    since <= s.now && forall a :: a in s.answers ==> since <= a.at <= s.now
  }

  /** What can have changed between `s` and `t`, other than tokens: time passed, and answers were added. */
  predicate LeadsTo(s: Shared, t: Shared) {
    && s.now <= t.now && s.answers <= t.answers
    && t.produced == s.produced + t.answers[|s.answers|..]
    && (s.reader.Gone? ==> t.reader.Gone? && t.answers == s.answers)
  }

  lemma ProducingKeepsTokens(s: Shared, t: Shared, typed: Option<Typed>, reading: bool, since: nat)
    requires OneToken(t, reading) && ReadSince(t, since) && LeadsTo(s, t) && t.reader.Busy?
    ensures
      var u := Produce(t, typed);
      OneToken(u, reading) && ReadSince(u, since) && LeadsTo(s, u)
  {
    var n := |s.answers|;
    var u := Produce(t, typed);
    assert u.answers[n..] == t.answers[n..] + [u.answers[|t.answers|]];
  }

  lemma ReaderStepKeepsTokens(s: Shared, t: Shared, e: OtherStep, reading: bool, since: nat)
    requires OneToken(t, reading) && ReadSince(t, since) && LeadsTo(s, t)
    ensures OneToken(OthersDo(t, e), reading) && ReadSince(OthersDo(t, e), since) && LeadsTo(s, OthersDo(t, e))
  {
    if t.reader.Busy? && e.Reads? && t.input != [] {
      ProducingKeepsTokens(s, t, Some(t.input[0]), reading, since);
    } else if t.reader.Busy? && e.Ends? {
      ProducingKeepsTokens(s, t, None, reading, since);
    }
  }

  /** Whatever the reader does, no token is lost or made, and an answer is as late as its request. */
  lemma {:induction false} ReaderKeepsTokens(s: Shared, steps: seq<OtherStep>, reading: bool, since: nat)
    requires OneToken(s, reading) && ReadSince(s, since)
    ensures
      var t := Meanwhile(s, steps);
      OneToken(t, reading) && ReadSince(t, since) && LeadsTo(s, t)
    decreases |steps|
  {
    if steps == [] {
      assert s.answers[|s.answers|..] == [];
    } else {
      var front := steps[..|steps| - 1];
      ReaderKeepsTokens(s, front, reading, since);
      ReaderStepKeepsTokens(s, Meanwhile(s, front), steps[|steps| - 1], reading, since);
    }
  }

  // The answer is yes only for a `y` by itself.

  predicate IsSpace(c: char) {
    var n := c as int;
    || 0x09 <= n <= 0x0D || n == 0x20 || n == 0x85 || n == 0xA0 || n == 0x1680
    || 0x2000 <= n <= 0x200A || n == 0x2028 || n == 0x2029 || n == 0x202F || n == 0x205F || n == 0x3000
  }

  function TrimStart(s: string): string { if s != "" && IsSpace(s[0]) then TrimStart(s[1..]) else s }

  function TrimEnd(s: string): string {
    if s != "" && IsSpace(s[|s| - 1]) then TrimEnd(s[..|s| - 1]) else s
  }

  function Trim(s: string): string { TrimEnd(TrimStart(s)) }

  predicate YAt(line: string, i: nat) {
    i < |line| && line[i] == 'y' && forall j :: 0 <= j < |line| && j != i ==> IsSpace(line[j])
  }

  lemma {:induction false} TrimEndGivesY(s: string)
    requires s != "" && !IsSpace(s[0])
    ensures TrimEnd(s) == "y" <==> YAt(s, 0)
    decreases |s|
  {
    if IsSpace(s[|s| - 1]) {
      var front := s[..|s| - 1];
      TrimEndGivesY(front);
      assert YAt(front, 0) <==> YAt(s, 0);
    } else if |s| > 1 {
      assert !YAt(s, 0);
    }
  }

  lemma {:induction false} YesExactly(line: string)
    ensures Trim(line) == "y" <==> exists i: nat :: YAt(line, i)
    decreases |line|
  {
    if line != "" {
      if IsSpace(line[0]) {
        var rest := line[1..];
        YesExactly(rest);
        if i: nat :| YAt(rest, i) {
          forall j | 0 <= j < |line| && j != i + 1 ensures IsSpace(line[j]) {
            if j > 0 { assert IsSpace(rest[j - 1]); }
          }
          assert YAt(line, i + 1);
        }
        if i: nat :| YAt(line, i) { assert YAt(rest, i - 1); }
      } else {
        TrimEndGivesY(line);
        if i: nat :| YAt(line, i) { assert i == 0; }
      }
    }
  }

  predicate Approves(a: Answer) { a.typed.Some? && Trim(a.typed.value.line) == "y" }

  // Which lines answer a question.

  /** Lines are read in the order in which they were typed, each once. */
  predicate ReadInOrder(s: Shared) { s.typed == s.lines + s.input }

  /** The main thread's steps, between any of the others'. */
  datatype Move = Others(e: OtherStep) | Requests | Receives

  function Moves(s: Shared, m: Move): Shared {
    match m
    case Others(e) => OthersDo(s, e)
    case Requests => if s.reader.Gone? then s else s.(asks := s.asks + 1)
    case Receives => if s.answers == [] then s else s.(answers := s.answers[1..])
  }

  function After(s: Shared, moves: seq<Move>): Shared {
    if moves == [] then s else Moves(After(s, moves[..|moves| - 1]), moves[|moves| - 1])
  }

  lemma OneMoveKeepsOrder(s: Shared, m: Move)
    requires ReadInOrder(s)
    ensures ReadInOrder(Moves(s, m)) && s.typed <= Moves(s, m).typed && s.lines <= Moves(s, m).lines
  {
  }

  lemma {:induction false} MovesKeepOrder(s: Shared, moves: seq<Move>)
    requires ReadInOrder(s)
    ensures
      var t := After(s, moves);
      ReadInOrder(t) && s.typed <= t.typed && s.lines <= t.lines
    decreases |moves|
  {
    if moves != [] {
      var front := moves[..|moves| - 1];
      MovesKeepOrder(s, front);
      OneMoveKeepsOrder(After(s, front), moves[|moves| - 1]);
    }
  }

  /** The reader has nothing to do but wait. */
  predicate Settled(s: Shared) { !(s.reader.Waiting? && s.asks > 0) && !(s.reader.Busy? && s.input != []) }

  /** The reader keeps finding lines. */
  predicate Lively(steps: seq<OtherStep>) { forall i :: 0 <= i < |steps| ==> !steps[i].Ends? && !steps[i].Dies? }

  /** Where a gap between two questions can lead: a read in progress takes the first line typed, and no more. */
  predicate GapState(s: Shared, t: Shared) {
    && t.asks == s.asks && s.typed <= t.typed
    && var later := t.typed[|s.typed|..];
    || (t.reader == s.reader && t.lines == s.lines && t.input == s.input + later)
    || (s.reader.Busy? && t.reader.Waiting? && later != [] && t.input == later[1..]
        && t.lines == s.lines + [later[0]])
  }

  lemma GapStep(s: Shared, t: Shared, e: OtherStep)
    requires Settled(s) && s.asks == 0 && !s.reader.Gone? && GapState(s, t) && !e.Ends? && !e.Dies?
    ensures GapState(s, OthersDo(t, e))
  {
    var u := OthersDo(t, e);
    var n := |s.typed|;
    if e.Types? {
      assert u.typed[n..] == t.typed[n..] + [Typed(e.line, t.now)];
    }
  }

  lemma {:induction false} GapLeads(s: Shared, steps: seq<OtherStep>)
    requires Settled(s) && s.asks == 0 && !s.reader.Gone? && Lively(steps)
    ensures GapState(s, Meanwhile(s, steps))
    decreases |steps|
  {
    if steps == [] {
      assert s.typed[|s.typed|..] == [] && s.input + [] == s.input;
    } else {
      var front := steps[..|steps| - 1];
      GapLeads(s, front);
      GapStep(s, Meanwhile(s, front), steps[|steps| - 1]);
    }
  }

  /**
   What decides whether a line answers a question is when it was read, not when it was typed. Between two
   questions the program asks for nothing, so a line typed then is read at once only if a read is still in
   progress, and only the first one is. Hence the first line read after the next question is shown is one typed
   before it if and only if there are more lines, unread when the last question ended or typed since, than
   reads in progress.
   */
  lemma EarlyLinesAnswerExactly(s: Shared, gap: seq<OtherStep>, moves: seq<Move>, reading: bool)
    requires OneToken(s, reading) && ReadInOrder(s) && Settled(s) && !s.reader.Gone?
    requires Lively(gap) && Settled(Meanwhile(s, gap))
    requires |After(Meanwhile(s, gap), moves).lines| > |Meanwhile(s, gap).lines|
    ensures
      var (asked, later) := (Meanwhile(s, gap), After(Meanwhile(s, gap), moves));
      var n := |asked.lines|;
      && n < |later.typed| && later.lines[n] == later.typed[n] && asked.typed <= later.typed
      && (n < |asked.typed| <==>
            |s.input| + (|asked.typed| - |s.typed|) > if reading && s.answers == [] then 1 else 0)
  {
    GapLeads(s, gap);
    GapKeepsOrder(s, gap);
    MovesKeepOrder(Meanwhile(s, gap), moves);
  }

  lemma {:induction false} GapKeepsOrder(s: Shared, steps: seq<OtherStep>)
    requires ReadInOrder(s)
    ensures ReadInOrder(Meanwhile(s, steps))
    decreases |steps|
  {
    if steps != [] {
      var front := steps[..|steps| - 1];
      GapKeepsOrder(s, front);
      OneMoveKeepsOrder(Meanwhile(s, front), Others(steps[|steps| - 1]));
    }
  }

  /** A `y` typed while nothing is asked approves the question that is shown afterwards. */
  lemma EarlyYesApproves(start: nat)
    ensures
      var s := Shared(0, Waiting, [], [], [], [], [], start);
      var asked := Meanwhile(s, [Types("y"), TimePasses(1)]);
      var later := After(asked, [Requests, Others(Takes), Others(Reads)]);
      && OneToken(s, false) && Settled(s) && ReadInOrder(s)
      && |later.answers| == 1 && Approves(later.answers[0])
      && later.answers[0].at >= asked.now && later.answers[0].typed.value.at < asked.now
  {
    var s := Shared(0, Waiting, [], [], [], [], [], start);
    var gap := [Types("y"), TimePasses(1)];
    assert gap[..1] == [Types("y")] && gap[..1][..0] == [];
    var y := Typed("y", start);
    assert Meanwhile(s, gap[..1]) == s.(input := [y], typed := [y]);
    var asked := Meanwhile(s, gap);
    assert asked == s.(input := [y], typed := [y], now := start + 1);
    var moves := [Requests, Others(Takes), Others(Reads)];
    assert moves[..2][..1] == moves[..1] && moves[..1][..0] == [];
    assert After(asked, moves[..1]) == asked.(asks := 1);
    assert After(asked, moves[..2]) == asked.(reader := Busy);
    assert !IsSpace('y');
    assert TrimStart("y") == "y" && TrimEnd("y") == "y";
  }

  /**
   The reader serves a request: it takes it, and gives the first unread line with the time at which it was read, or
   no line when the input has ended, which is a no; then it waits for the next request.
   */
  lemma RequestsAreServed(s: Shared, ends: bool, d: nat)
    requires OneToken(s, true) && s.asks == 1 && s.reader.Waiting? && ReadInOrder(s) && (ends || s.input != [])
    ensures
      var t := After(s, [Others(Takes), Others(TimePasses(d)), Others(if ends then Ends else Reads)]);
      && t.reader == Waiting && t.asks == 0 && OneToken(t, true)
      && t.answers == [Answer(s.now + d, if ends then None else Some(s.input[0]))]
      && (ends ==> !Approves(t.answers[0]) && t.input == s.input && t.lines == s.lines)
      && (!ends ==> t.input == s.input[1..] && t.lines == s.lines + [s.input[0]])
  {
    var moves := [Others(Takes), Others(TimePasses(d)), Others(if ends then Ends else Reads)];
    assert moves[..2][..1] == moves[..1] && moves[..1][..0] == [];
    assert After(s, moves[..1]) == s.(asks := 0, reader := Busy);
    assert After(s, moves[..2]) == s.(asks := 0, reader := Busy, now := s.now + d);
  }

  class Approver {
    var shared: Shared
    var reading: bool
    /** When the question being asked was first shown. */
    var askedAt: Option<nat>
    /** When the line being read was requested, and the answers received so far. */
    ghost var requestedAt: nat
    ghost var received: seq<Answer>

    ghost predicate Valid()
      reads this
    {
      && OneToken(shared, reading) && ReadSince(shared, requestedAt)
      && shared.produced == received + shared.answers && ReadInOrder(shared)
      && (askedAt.Some? ==> askedAt.value <= shared.now)
    }

    constructor (now: nat)
      ensures Valid() && askedAt.None? && !reading && received == []
    {
      shared, reading, askedAt := Shared(0, Waiting, [], [], [], [], [], now), false, None;
      requestedAt, received := now, [];
    }

    /** The reader's turn. */
    method Interfere()
      requires Valid()
      modifies this`shared
      ensures Valid() && LeadsTo(old(shared), shared)
    {
      var steps: seq<OtherStep> :| true;
      ReaderKeepsTokens(shared, steps, reading, requestedAt);
      GapKeepsOrder(shared, steps);
      shared := Meanwhile(shared, steps);
    }

    /** Sends the reader a token; fails if it is gone. */
    method RequestLine() returns (ok: bool)
      requires Valid() && !reading
      modifies this`shared, this`reading, this`requestedAt
      ensures Valid() && reading == ok && shared.now == old(shared.now) && shared.answers == []
      ensures ok ==> requestedAt == shared.now
      ensures !ok ==> shared.reader.Gone?
    {
      ok := !shared.reader.Gone?;
      if ok {
        shared := shared.(asks := shared.asks + 1);
        reading := true;
        requestedAt := shared.now;
      }
    }

    /**
     Requests a line, unless that was done before, and looks for the answer. `Err` if the reader is gone, `None`
     if nothing has come yet, and otherwise the answer that has waited longest.
     */
    method Look() returns (r: Result<Option<Answer>, ()>)
      requires Valid()
      modifies this`shared, this`reading, this`requestedAt, this`received
      ensures Valid() && shared.now >= old(shared.now)
      ensures match r
              case Err(_) => shared.reader.Gone? && shared.answers == [] && received == old(received)
              case Ok(None) => reading && !shared.reader.Gone? && shared.answers == [] && received == old(received)
              case Ok(Some(a)) =>
                && !reading && received == old(received) + [a] && (!old(reading) ==> a.at >= old(shared.now))
                && shared.answers == [] && (old(shared.answers) != [] ==> [a] == old(shared.answers))
      ensures old(shared.answers) != [] ==> r.Ok? && r.value.Some?
    {
      if !reading {
        Interfere();
        var ok := RequestLine();
        if !ok { return Err(()); }
      }
      Interfere();
      if shared.answers == [] {
        return if shared.reader.Gone? then Err(()) else Ok(None);
      }
      var a := Receive();
      return Ok(Some(a));
    }

    /** Takes the answer that has come. */
    method Receive() returns (a: Answer)
      requires Valid() && shared.answers != []
      modifies this`shared, this`reading, this`received
      ensures Valid() && !reading && received == old(received) + [a] && a == old(shared.answers)[0]
      ensures shared.now == old(shared.now) && requestedAt <= a.at && shared.answers == []
    {
      a := shared.answers[0];
      assert a in shared.answers;
      assert shared.answers == [a] + shared.answers[1..];
      shared := shared.(answers := shared.answers[1..]);
      reading := false;
      received := received + [a];
    }

    /**
     Asks without waiting. An answer is a line read after this question was first shown, and only a `y` by
     itself is a yes; the end of input, a read error and a dead reader are a no. What was read between two
     questions is thrown away, and that is one answer at most, so that the loop runs twice at most. An answer that
     waits is always taken: there is no answer yet only if none waits and the reader lives.
     */
    method AnswerNow() returns (r: Option<bool>, ghost used: Option<Answer>, ghost stale: seq<Answer>)
      requires Valid()
      modifies this
      ensures Valid() && askedAt.Some?
      ensures if old(askedAt).Some? then askedAt == old(askedAt) else askedAt.value >= old(shared.now)
      ensures match used
              case Some(a) => r == Some(Approves(a)) && a.at >= askedAt.value
              case None => if r.None? then reading && !shared.reader.Gone? else r == Some(false) && shared.reader.Gone?
      ensures shared.answers == [] && received == shared.produced
      ensures received == old(received) + stale + (if used.Some? then [used.value] else [])
      ensures |stale| <= 1 && (stale != [] ==> stale[0].at < askedAt.value)
      ensures old(shared.answers) <= stale + (if used.Some? then [used.value] else [])
    {
      Interfere();
      if askedAt.None? { askedAt := Some(shared.now); }
      stale, used := [], None;
      while true
        invariant Valid() && askedAt.Some? && used.None? && |stale| <= 1
        invariant if old(askedAt).Some? then askedAt == old(askedAt) else askedAt.value >= old(shared.now)
        invariant received == old(received) + stale
        invariant stale != [] ==> !reading && stale[0].at < askedAt.value
        invariant if stale == [] then old(shared.answers) <= shared.answers else old(shared.answers) <= stale
        decreases 1 - |stale|
      {
        var got := Look();
        if got.Err? { return Some(false), None, stale; }
        if got.value.None? { return None, None, stale; }
        var a := got.value.value;
        if a.at >= askedAt.value { return Some(Approves(a)), Some(a), stale; }
        stale := stale + [a];
      }
    }

    /** Ends a question; what is read before the next one is shown is not an answer to it. */
    method EndQuestion()
      requires Valid()
      modifies this`askedAt
      ensures Valid() && askedAt.None?
    {
      askedAt := None;
    }
  }
}
