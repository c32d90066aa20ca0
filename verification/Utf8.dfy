/** UTF-8 (RFC 3629): the bytes of a text, and that they determine it. */
module Utf8 {
  import opened Bytes

  function EncodeChar(c: char): (r: seq<byte>)
    ensures r != []
  {
    var n := c as int;
    if n < 0x80 then [n]
    else if n < 0x800 then [0xC0 + n / 64, 0x80 + n % 64]
    else if n < 0x1_0000 then [0xE0 + n / 4096, 0x80 + n / 64 % 64, 0x80 + n % 64]
    else [0xF0 + n / 262144, 0x80 + n / 4096 % 64, 0x80 + n / 64 % 64, 0x80 + n % 64]
  }

  function Encode(s: string): (r: seq<byte>)
    ensures |r| >= |s|
  {
    if s == "" then [] else EncodeChar(s[0]) + Encode(s[1..])
  }

  /** No character's encoding is a prefix of another's. */
  lemma FirstCharIsDetermined(c: char, d: char, x: seq<byte>, y: seq<byte>)
    requires EncodeChar(c) + x == EncodeChar(d) + y
    ensures c == d && x == y
  {
    var (a, b) := (EncodeChar(c), EncodeChar(d));
    assert (a + x)[0] == a[0] && (b + y)[0] == b[0];
    assert |a| == |b|;
    assert a == (a + x)[..|a|] && b == (b + y)[..|b|];
    CharIsDetermined(c, d);
    assert x == (a + x)[|a|..] && y == (b + y)[|b|..];
  }

  lemma CharIsDetermined(c: char, d: char)
    requires EncodeChar(c) == EncodeChar(d)
    ensures c == d
  {
    var (m, n, a, b) := (c as int, d as int, EncodeChar(c), EncodeChar(d));
    assert forall i :: 0 <= i < |a| ==> a[i] == b[i];
    if m < 0x80 {
    } else if m < 0x800 {
      assert m / 64 == n / 64 && m % 64 == n % 64;
    } else if m < 0x1_0000 {
      Thirds(m, n);
    } else {
      Thirds(m, n);
    }
  }

  lemma Thirds(m: int, n: int)
    requires m >= 0 && n >= 0
    requires m / 64 % 64 == n / 64 % 64 && m % 64 == n % 64
    requires m / 4096 == n / 4096 || (m / 262144 == n / 262144 && m / 4096 % 64 == n / 4096 % 64)
    ensures m == n
  {
    assert m / 4096 / 64 == m / 262144 && n / 4096 / 64 == n / 262144;
    assert m / 64 / 64 == m / 4096 && n / 64 / 64 == n / 4096;
    assert m / 4096 == n / 4096;
    assert m / 64 == n / 64;
  }

  lemma {:induction false} EncodeIsInjective(s: string, t: string)
    requires Encode(s) == Encode(t)
    ensures s == t
  {
    if s != "" && t != "" {
      FirstCharIsDetermined(s[0], t[0], Encode(s[1..]), Encode(t[1..]));
      EncodeIsInjective(s[1..], t[1..]);
      assert s == [s[0]] + s[1..] && t == [t[0]] + t[1..];
    }
  }
}
