/** H.264 byte streams (Annex B of ITU-T H.264): printing NAL units with start codes, and splitting them again. */
module AnnexB {
  import opened Bytes

  const START_CODE: seq<byte> := [0, 0, 0, 1]

  predicate CodeAt(d: seq<byte>, i: nat) { i + 3 <= |d| && d[i] == 0 && d[i + 1] == 0 && d[i + 2] == 1 }

  /** NAL units that a byte stream can carry: no start code inside, and no zero at the end. */
  predicate Clean(n: seq<byte>) {
    && (forall i: nat :: i < |n| ==> !CodeAt(n, i))
    && (n != [] ==> n[|n| - 1] != 0)
  }

  predicate AllClean(nals: seq<seq<byte>>) { forall k :: 0 <= k < |nals| ==> Clean(nals[k]) }

  // What splitting means.

  /** The first start code at or after `i`, or the end of the data. */
  function NextCode(d: seq<byte>, i: nat): (c: nat)
    requires i <= |d|
    ensures i <= c <= |d|
    ensures forall p: nat :: i <= p < c ==> !CodeAt(d, p)
    ensures c < |d| ==> CodeAt(d, c)
    decreases |d| - i
  {
    if i == |d| || CodeAt(d, i) then i else NextCode(d, i + 1)
  }

  /** Where `d[s..e]` ends without its trailing zeros. */
  function TrimmedEnd(d: seq<byte>, s: nat, e: nat): (r: nat)
    requires s <= e <= |d|
    ensures s <= r <= e && (r > s ==> d[r - 1] != 0)
    ensures forall p :: r <= p < e ==> d[p] == 0
    decreases e
  {
    if e > s && d[e - 1] == 0 then TrimmedEnd(d, s, e - 1) else e
  }

  /** The units from `s` on, where one begins. */
  function UnitsFrom(d: seq<byte>, s: nat): seq<seq<byte>>
    requires s <= |d|
    decreases |d| - s, 1
  {
    var c := NextCode(d, s);
    [d[s..TrimmedEnd(d, s, c)]] + UnitsAt(d, c)
  }

  /** The units from the start code at `c` on, or none at the end of the data. */
  function UnitsAt(d: seq<byte>, c: nat): seq<seq<byte>>
    requires c <= |d| && (c < |d| ==> CodeAt(d, c))
    decreases |d| - c, 0
  {
    if c < |d| then UnitsFrom(d, c + 3) else []
  }

  function Units(d: seq<byte>): seq<seq<byte>> { UnitsAt(d, NextCode(d, 0)) }

  /** Units with a start code before each, `zeros[k]` zeros longer than the shortest one. */
  function Stream(nals: seq<seq<byte>>, zeros: seq<nat>): seq<byte>
    requires |zeros| == |nals|
  {
    if nals == [] then []
    else seq(zeros[0], _ => 0) + [0, 0, 1] + (nals[0] + Stream(nals[1..], zeros[1..]))
  }

  // The program's two functions.

  function Ones(n: nat): (r: seq<nat>)
    ensures |r| == n
  {
    seq(n, _ => 1)
  }

  lemma {:induction false} StreamSnoc(nals: seq<seq<byte>>, n: seq<byte>)
    ensures Stream(nals + [n], Ones(|nals| + 1)) == Stream(nals, Ones(|nals|)) + START_CODE + n
  {
    assert seq(1, _ => 0) == [0];
    if nals == [] {
      assert Stream([n], Ones(1)) == [0] + [0, 0, 1] + (n + Stream([], []));
    } else {
      StreamSnoc(nals[1..], n);
      assert (nals + [n])[1..] == nals[1..] + [n];
      assert Ones(|nals| + 1)[1..] == Ones(|nals|) && Ones(|nals|)[1..] == Ones(|nals| - 1);
    }
  }

  method Print(nals: seq<seq<byte>>) returns (out: seq<byte>)
    ensures out == Stream(nals, Ones(|nals|))
  {
    out := [];
    var k := 0;
    while k < |nals|
      invariant 0 <= k <= |nals|
      invariant out == Stream(nals[..k], Ones(k))
    {
      StreamSnoc(nals[..k], nals[k]);
      assert nals[..k + 1] == nals[..k] + [nals[k]];
      out := out + START_CODE;
      out := out + nals[k];
      k := k + 1;
    }
    assert nals[..k] == nals;
  }

  /** The start code before the `k`-th of these places, or the end of the data. */
  function CodeBefore(d: seq<byte>, starts: seq<nat>, k: nat): int {
    if k < |starts| then starts[k] - 3 else |d|
  }

  /** The `k`-th place follows a start code, and the next one follows the next code. */
  predicate Chained(d: seq<byte>, starts: seq<nat>, k: nat)
    requires k < |starts|
  {
    && 3 <= starts[k] <= |d| && CodeAt(d, starts[k] - 3)
    && NextCode(d, starts[k]) == CodeBefore(d, starts, k + 1)
  }

  /** `starts` are the places after start codes, each code the first one after the place before. */
  predicate AreStarts(d: seq<byte>, starts: seq<nat>) {
    && NextCode(d, 0) == CodeBefore(d, starts, 0)
    && forall k: nat :: k < |starts| ==> Chained(d, starts, k)
  }

  lemma ChainGrows(d: seq<byte>, starts: seq<nat>, i: nat, more: seq<nat>)
    requires more == starts + [i + 3] && starts != [] && i <= |d| && CodeAt(d, i)
    requires forall k: nat :: k < |starts| - 1 ==> Chained(d, starts, k)
    requires 3 <= starts[|starts| - 1] <= |d| && CodeAt(d, starts[|starts| - 1] - 3)
    requires NextCode(d, starts[|starts| - 1]) == i
    ensures forall k: nat :: k < |starts| ==> Chained(d, more, k)
  {
    forall k: nat | k < |starts| ensures Chained(d, more, k) {
      if k < |starts| - 1 { assert Chained(d, starts, k); }
    }
  }

  method FindStarts(d: seq<byte>) returns (starts: seq<nat>)
    ensures AreStarts(d, starts)
  {
    starts := [];
    var i := 0;
    while i + 3 <= |d|
      invariant 0 <= i <= |d|
      invariant starts == [] ==> NextCode(d, 0) == NextCode(d, i)
      invariant starts != [] ==>
                  && NextCode(d, 0) + 3 == starts[0]
                  && 3 <= starts[|starts| - 1] <= |d| && CodeAt(d, starts[|starts| - 1] - 3)
                  && NextCode(d, starts[|starts| - 1]) == NextCode(d, i)
      invariant forall k: nat :: k < |starts| - 1 ==> Chained(d, starts, k)
    {
      if d[i] == 0 && d[i + 1] == 0 && d[i + 2] == 1 {
        if starts != [] { ChainGrows(d, starts, i, starts + [i + 3]); }
        starts := starts + [i + 3];
        i := i + 3;
      } else {
        i := i + 1;
      }
    }
    NextCodeIs(d, i, |d|);
  }

  method TrimEnd(d: seq<byte>, s: nat, end: nat) returns (e: nat)
    requires s <= end <= |d|
    ensures e == TrimmedEnd(d, s, end)
  {
    e := end;
    while e > s && d[e - 1] == 0
      invariant s <= e <= end
      invariant TrimmedEnd(d, s, e) == TrimmedEnd(d, s, end)
    {
      e := e - 1;
    }
  }

  function UnitsBefore(d: seq<byte>, starts: seq<nat>, k: nat): seq<seq<byte>>
    requires AreStarts(d, starts) && k <= |starts|
  {
    if k < |starts| then assert Chained(d, starts, k); UnitsAt(d, starts[k] - 3) else []
  }

  lemma NextUnit(d: seq<byte>, starts: seq<nat>, k: nat)
    requires AreStarts(d, starts) && k < |starts|
    ensures
      var e := CodeBefore(d, starts, k + 1);
      && starts[k] <= e <= |d|
      && UnitsBefore(d, starts, k) == [d[starts[k]..TrimmedEnd(d, starts[k], e)]] + UnitsBefore(d, starts, k + 1)
  {
    assert Chained(d, starts, k);
    if k + 1 < |starts| { assert Chained(d, starts, k + 1); }
    var e := CodeBefore(d, starts, k + 1);
    assert UnitsFrom(d, starts[k]) == [d[starts[k]..TrimmedEnd(d, starts[k], e)]] + UnitsAt(d, e);
  }

  lemma UnitsBeforeFirst(d: seq<byte>, starts: seq<nat>)
    requires AreStarts(d, starts)
    ensures UnitsBefore(d, starts, 0) == Units(d)
  {
    if starts != [] { assert Chained(d, starts, 0); }
  }

  method Split(d: seq<byte>) returns (out: seq<seq<byte>>)
    ensures out == Units(d)
  {
    var starts := FindStarts(d);
    out := [];
    var k := 0;
    UnitsBeforeFirst(d, starts);
    while k < |starts|
      invariant 0 <= k <= |starts|
      invariant Units(d) == out + UnitsBefore(d, starts, k)
    {
      NextUnit(d, starts, k);
      var end := if k + 1 < |starts| then starts[k + 1] - 3 else |d|;
      var e := TrimEnd(d, starts[k], end);
      out := out + [d[starts[k]..e]];
      k := k + 1;
    }
  }

  // Round trips.

  lemma NextCodeIs(d: seq<byte>, i: nat, c: nat)
    requires i <= c <= |d| && (forall p: nat :: i <= p < c ==> !CodeAt(d, p)) && (c == |d| || CodeAt(d, c))
    ensures NextCode(d, i) == c
  {
  }

  lemma TrimmedEndIs(d: seq<byte>, s: nat, m: nat, e: nat)
    requires s <= m <= e <= |d| && (m == s || d[m - 1] != 0) && (forall p :: m <= p < e ==> d[p] == 0)
    ensures TrimmedEnd(d, s, e) == m
  {
  }

  /** `n` lies at `s`, with `zeros` zeros and a start code after it. */
  predicate Lies(d: seq<byte>, s: nat, n: seq<byte>, zeros: nat) {
    var (e, c) := (s + |n|, s + |n| + zeros);
    && c + 3 <= |d| && d[s..e] == n && d[c + 2] == 1
    && forall p :: e <= p < c + 2 ==> d[p] == 0
  }

  lemma LaidOut(d: seq<byte>, s: nat, n: seq<byte>, zeros: nat, more: seq<byte>)
    requires s <= |d| && d[s..] == n + (seq(zeros, _ => 0) + [0, 0, 1] + more)
    ensures Lies(d, s, n, zeros) && d[s + |n| + zeros + 3..] == more
  {
    var t := d[s..];
    var u := seq(zeros, _ => 0) + [0, 0, 1] + more;
    assert d[s..s + |n|] == t[..|n|] == n;
    assert d[s + |n|..] == t[|n|..] == u;
    forall p | s + |n| <= p < s + |n| + zeros + 2 ensures d[p] == 0 {
      assert d[p] == u[p - s - |n|];
    }
    assert d[s + |n| + zeros + 2] == u[zeros + 2];
    assert d[s + |n| + zeros + 3..] == u[zeros + 3..] == more;
  }

  /** A clean unit followed by a start code ends there and nowhere earlier. */
  lemma UnitEnds(d: seq<byte>, s: nat, n: seq<byte>, zeros: nat)
    requires s <= |d| && Clean(n) && Lies(d, s, n, zeros)
    ensures var c := s + |n| + zeros; NextCode(d, s) == c && d[s..TrimmedEnd(d, s, c)] == n
  {
    var (e, c) := (s + |n|, s + |n| + zeros);
    assert forall j :: 0 <= j < |n| ==> d[s + j] == n[j];
    forall p: nat | s <= p < c ensures !CodeAt(d, p) {
      if p + 2 < e { NotInside(d, s, n, p); }
    }
    NextCodeIs(d, s, c);
    if n != [] { assert d[e - 1] == n[|n| - 1]; }
    TrimmedEndIs(d, s, e, c);
  }

  lemma NotInside(d: seq<byte>, s: nat, n: seq<byte>, p: nat)
    requires s + |n| <= |d| && d[s..s + |n|] == n && Clean(n) && s <= p && p + 2 < s + |n|
    ensures !CodeAt(d, p)
  {
    assert !CodeAt(n, p - s);
    assert n[p - s] == d[p] && n[p - s + 1] == d[p + 1] && n[p - s + 2] == d[p + 2];
  }

  lemma LastUnit(d: seq<byte>, s: nat, n: seq<byte>)
    requires s <= |d| && Clean(n) && d[s..] == n
    ensures UnitsFrom(d, s) == [n]
  {
    forall p: nat | s <= p < |d| ensures !CodeAt(d, p) {
      if p + 2 < |d| { NotInside(d, s, n, p); }
    }
    NextCodeIs(d, s, |d|);
    if n != [] { assert d[|d| - 1] == n[|n| - 1]; }
    TrimmedEndIs(d, s, |d|, |d|);
    assert d[s..|d|] == d[s..] && UnitsAt(d, |d|) == [];
  }

  lemma NextLies(d: seq<byte>, s: nat, n: seq<byte>, nals: seq<seq<byte>>, zeros: seq<nat>)
    requires |zeros| == |nals| > 0 && s <= |d| && d[s..] == n + Stream(nals, zeros)
    ensures Lies(d, s, n, zeros[0])
  {
    LaidOut(d, s, n, zeros[0], AfterCode(nals, zeros));
  }

  lemma NextFollows(d: seq<byte>, s: nat, n: seq<byte>, nals: seq<seq<byte>>, zeros: seq<nat>)
    requires |zeros| == |nals| > 0 && s <= |d| && d[s..] == n + Stream(nals, zeros)
    ensures s + |n| + zeros[0] + 3 <= |d| && d[s + |n| + zeros[0] + 3..] == AfterCode(nals, zeros)
  {
    LaidOut(d, s, n, zeros[0], AfterCode(nals, zeros));
  }

  lemma LastOfStream(d: seq<byte>, s: nat, nals: seq<seq<byte>>, zeros: seq<nat>)
    requires |nals| == 1 && |zeros| == 1 && s <= |d| && Clean(nals[0]) && d[s..] == AfterCode(nals, zeros)
    ensures UnitsFrom(d, s) == nals
  {
    var more := Stream(nals[1..], zeros[1..]);
    assert more == [];
    assert nals[0] + more == nals[0];
    LastUnit(d, s, nals[0]);
  }

  lemma UnitAndMore(d: seq<byte>, s: nat, n: seq<byte>, zeros: nat)
    requires s <= |d| && Clean(n) && Lies(d, s, n, zeros)
    ensures UnitsFrom(d, s) == [n] + UnitsFrom(d, s + |n| + zeros + 3)
  {
    UnitEnds(d, s, n, zeros);
  }

  lemma HeadAndTail(nals: seq<seq<byte>>)
    requires nals != []
    ensures [nals[0]] + nals[1..] == nals
    ensures AllClean(nals) ==> Clean(nals[0]) && AllClean(nals[1..])
  {
  }

  /** What follows the first start code of a stream. */
  function AfterCode(nals: seq<seq<byte>>, zeros: seq<nat>): seq<byte>
    requires |zeros| == |nals| > 0
  {
    nals[0] + Stream(nals[1..], zeros[1..])
  }

  lemma UnitOfStream(d: seq<byte>, s: nat, n: seq<byte>, rest: seq<seq<byte>>, gaps: seq<nat>)
    requires |gaps| == |rest| > 0 && Clean(n) && s <= |d| && d[s..] == n + Stream(rest, gaps)
    requires s + |n| + gaps[0] + 3 <= |d| && UnitsFrom(d, s + |n| + gaps[0] + 3) == rest
    ensures UnitsFrom(d, s) == [n] + rest
  {
    NextLies(d, s, n, rest, gaps);
    UnitAndMore(d, s, n, gaps[0]);
  }

  lemma {:induction false} StreamHasUnits(d: seq<byte>, s: nat, nals: seq<seq<byte>>, zeros: seq<nat>)
    requires |zeros| == |nals| > 0 && AllClean(nals) && s <= |d| && d[s..] == AfterCode(nals, zeros)
    ensures UnitsFrom(d, s) == nals
    decreases |nals|
  {
    HeadAndTail(nals);
    if |nals| == 1 {
      LastOfStream(d, s, nals, zeros);
    } else {
      var (n, rest, gaps) := (nals[0], nals[1..], zeros[1..]);
      NextFollows(d, s, n, rest, gaps);
      StreamHasUnits(d, s + |n| + gaps[0] + 3, rest, gaps);
      UnitOfStream(d, s, n, rest, gaps);
    }
  }

  /** Clean units come back from a stream, whatever the lengths of its start codes. */
  lemma CleanUnitsComeBack(nals: seq<seq<byte>>, zeros: seq<nat>)
    requires |zeros| == |nals| && AllClean(nals)
    ensures Units(Stream(nals, zeros)) == nals
  {
    if nals == [] {
      assert NextCode([], 0) == 0;
    } else {
      var d := Stream(nals, zeros);
      assert d[0..] == [] + d;
      NextLies(d, 0, [], nals, zeros);
      NextFollows(d, 0, [], nals, zeros);
      UnitEnds(d, 0, [], zeros[0]);
      StreamHasUnits(d, zeros[0] + 3, nals, zeros);
    }
  }

  /** Whatever the data, its units are clean. */
  lemma {:induction false} UnitsFromAreClean(d: seq<byte>, s: nat)
    requires s <= |d|
    ensures AllClean(UnitsFrom(d, s))
    decreases |d| - s
  {
    var c := NextCode(d, s);
    var e := TrimmedEnd(d, s, c);
    var n := d[s..e];
    assert Clean(n) by {
      forall i: nat | i < |n| ensures !CodeAt(n, i) {
        assert !CodeAt(d, s + i);
      }
    }
    if c < |d| { UnitsFromAreClean(d, c + 3); }
  }

  lemma UnitsAreClean(d: seq<byte>)
    ensures AllClean(Units(d))
  {
    if NextCode(d, 0) < |d| { UnitsFromAreClean(d, NextCode(d, 0) + 3); }
  }

  /** Units survive printing and splitting exactly when they are clean. */
  lemma RoundTripsExactly(nals: seq<seq<byte>>)
    ensures Units(Stream(nals, Ones(|nals|))) == nals <==> AllClean(nals)
  {
    if AllClean(nals) {
      CleanUnitsComeBack(nals, Ones(|nals|));
    } else {
      UnitsAreClean(Stream(nals, Ones(|nals|)));
    }
  }

  /** Splitting, printing and splitting again gives the same units, for any data. */
  lemma SplittingIsStable(d: seq<byte>)
    ensures Units(Stream(Units(d), Ones(|Units(d)|))) == Units(d)
  {
    UnitsAreClean(d);
    RoundTripsExactly(Units(d));
  }
}
