/**
 * UTF-8 as Python's codec implements it: `str.encode()` and `bytes.decode()`, strict or with
 * `errors="replace"`. An ill-formed sequence is reported one maximal subpart at a time.
 */
module Utf8 {
  import opened Wrappers

  type Byte = b: int | 0 <= b < 256

  const Replacement: char := '\U{FFFD}'

  /** The UTF-8 encoding of one character. */
  function EncodeChar(c: char): (r: seq<Byte>)
    ensures 1 <= |r| <= 4
  {
    var n := c as int;
    if n < 0x80 then [n]
    else if n < 0x800 then [0xC0 + n / 64, 0x80 + n % 64]
    else if n < 0x10000 then [0xE0 + n / 4096, 0x80 + (n / 64) % 64, 0x80 + n % 64]
    else [0xF0 + n / 262144, 0x80 + (n / 4096) % 64, 0x80 + (n / 64) % 64, 0x80 + n % 64]
  }

  /** `s.encode()`. */
  function Encode(s: string): (r: seq<Byte>)
    ensures |r| >= |s|
    ensures (forall i :: 0 <= i < |s| ==> s[i] as int < 0x80) ==> |r| == |s| && forall i :: 0 <= i < |s| ==> r[i] == s[i] as int
  {
    if s == [] then [] else EncodeChar(s[0]) + Encode(s[1..])
  }

  /** The length of the sequence a lead byte starts; 0 for a byte that cannot start one. */
  function Need(lead: Byte): nat {
    if lead < 0x80 then 1
    else if 0xC2 <= lead <= 0xDF then 2
    else if 0xE0 <= lead <= 0xEF then 3
    else if 0xF0 <= lead <= 0xF4 then 4
    else 0
  }

  /** Whether `x` may stand at position `pos` (1, 2 or 3) of a sequence starting with `lead`. */
  predicate ContinuationOk(lead: Byte, pos: nat, x: Byte) {
    0x80 <= x <= 0xBF
    && (pos == 1 && lead == 0xE0 ==> x >= 0xA0)
    && (pos == 1 && lead == 0xED ==> x <= 0x9F)
    && (pos == 1 && lead == 0xF0 ==> x >= 0x90)
    && (pos == 1 && lead == 0xF4 ==> x <= 0x8F)
  }

  /** How many bytes of `b`, from position `pos` up to `need`, continue the sequence begun by `b[0]`. */
  function Good(b: seq<Byte>, pos: nat, need: nat): (k: nat)
    requires b != [] && 1 <= pos <= need
    ensures pos <= k <= need && k <= |b| + (if pos > |b| then pos - |b| else 0)
    ensures forall j :: pos <= j < k ==> j < |b| && ContinuationOk(b[0], j, b[j])
    ensures k < need ==> k >= |b| || !ContinuationOk(b[0], k, b[k])
    decreases need - pos
  {
    if pos == need || pos >= |b| || !ContinuationOk(b[0], pos, b[pos]) then pos
    else Good(b, pos + 1, need)
  }

  /** The scalar value a well-formed sequence denotes. */
  function Combine(b: seq<Byte>, n: nat): (c: char)
    requires b != [] && n == Need(b[0]) && n >= 1 && |b| >= n
    requires forall j :: 1 <= j < n ==> ContinuationOk(b[0], j, b[j])
  {
    var x: seq<int> := b;
    if n == 1 then x[0] as char
    else if n == 2 then ((x[0] - 0xC0) * 64 + (x[1] - 0x80)) as char
    else if n == 3 then
      assert ContinuationOk(b[0], 1, b[1]) && ContinuationOk(b[0], 2, b[2]);
      var hi := (x[0] - 0xE0) * 4096 + (x[1] - 0x80) * 64;
      assert x[0] == 0xED ==> hi <= 0xD7C0;
      assert x[0] != 0xED ==> hi < 0xD000 || hi >= 0xE000;
      var v := hi + (x[2] - 0x80);
      v as char
    else
      assert ContinuationOk(b[0], 1, b[1]) && ContinuationOk(b[0], 2, b[2]) && ContinuationOk(b[0], 3, b[3]);
      var hi := (x[0] - 0xF0) * 262144 + (x[1] - 0x80) * 4096;
      assert 0x10000 <= hi <= 0x10F000;
      var v := hi + (x[2] - 0x80) * 64 + (x[3] - 0x80);
      v as char
  }

  /** One decoded character, or one ill-formed maximal subpart. */
  datatype Unit = Char(c: char) | Invalid

  /** The decoder's reading of `b`, unit by unit. */
  function Units(b: seq<Byte>): (r: seq<Unit>)
    ensures |r| <= |b| && (b != [] ==> r != [])
    decreases |b|
  {
    if b == [] then []
    else
      var n := Need(b[0]);
      if n == 0 then [Invalid] + Units(b[1..])
      else
        var k := if n == 1 then 1 else Good(b, 1, n);
        if k == n then [Char(Combine(b, n))] + Units(b[n..])
        else [Invalid] + Units(b[k..])
  }

  predicate WellFormed(b: seq<Byte>) {
    forall i :: 0 <= i < |Units(b)| ==> Units(b)[i].Char?
  }

  function UnitsText(us: seq<Unit>): (s: string)
    ensures |s| == |us|
  {
    if us == [] then []
    else [if us[0].Char? then us[0].c else Replacement] + UnitsText(us[1..])
  }

  /** `b.decode("utf-8", "replace")`: every ill-formed subpart becomes U+FFFD. */
  function DecodeReplace(b: seq<Byte>): (s: string)
    ensures |s| <= |b| && (b != [] ==> s != [])
  {
    UnitsText(Units(b))
  }

  /** `b.decode()`: None where Python raises UnicodeDecodeError. */
  function Decode(b: seq<Byte>): (r: Option<string>)
    ensures r.Some? <==> WellFormed(b)
    ensures r.Some? ==> r.value == DecodeReplace(b)
  {
    if WellFormed(b) then Some(DecodeReplace(b)) else None
  }

  lemma EncodeCharUnits1(c: char, rest: seq<Byte>)
    requires c as int < 0x80
    ensures Units(EncodeChar(c) + rest) == [Char(c)] + Units(rest)
  {
    var b := EncodeChar(c) + rest;
    assert b[1..] == rest;
  }

  lemma EncodeCharUnits2(c: char, rest: seq<Byte>)
    requires 0x80 <= c as int < 0x800
    ensures Units(EncodeChar(c) + rest) == [Char(c)] + Units(rest)
  {
    var n := c as int;
    var b := EncodeChar(c) + rest;
    assert b[0] == 0xC0 + n / 64 && b[1] == 0x80 + n % 64;
    assert Need(b[0]) == 2;
    assert ContinuationOk(b[0], 1, b[1]);
    assert Good(b, 1, 2) == 2;
    assert Combine(b, 2) == c;
    assert b[2..] == rest;
  }

  lemma EncodeCharUnits3(c: char, rest: seq<Byte>)
    requires 0x800 <= c as int < 0x10000
    ensures Units(EncodeChar(c) + rest) == [Char(c)] + Units(rest)
  {
    var n := c as int;
    var b := EncodeChar(c) + rest;
    assert b[0] == 0xE0 + n / 4096 && b[1] == 0x80 + (n / 64) % 64 && b[2] == 0x80 + n % 64;
    assert Need(b[0]) == 3;
    assert ContinuationOk(b[0], 1, b[1]);
    assert ContinuationOk(b[0], 2, b[2]);
    assert Good(b, 1, 3) == 3;
    assert Combine(b, 3) == c;
    assert b[3..] == rest;
  }

  lemma Split4(n: int) returns (q0: int, q1: int, q2: int, q3: int)
    requires 0x10000 <= n < 0x110000
    ensures q0 == n / 262144 && q1 == (n / 4096) % 64 && q2 == (n / 64) % 64 && q3 == n % 64
    ensures n == q0 * 262144 + q1 * 4096 + q2 * 64 + q3
    ensures 0 <= q0 <= 4 && 0 <= q1 < 64 && 0 <= q2 < 64 && 0 <= q3 < 64
    ensures (q0 == 4 ==> q1 < 16) && (q0 == 0 ==> q1 >= 16)
  {
    q0, q1, q2, q3 := n / 262144, (n / 4096) % 64, (n / 64) % 64, n % 64;
  }

  lemma EncodeCharUnits4(c: char, rest: seq<Byte>)
    requires 0x10000 <= c as int
    ensures Units(EncodeChar(c) + rest) == [Char(c)] + Units(rest)
  {
    var n := c as int;
    var e := EncodeChar(c);
    var q0, q1, q2, q3 := Split4(n);
    assert e == [0xF0 + q0, 0x80 + q1, 0x80 + q2, 0x80 + q3];
    var b := e + rest;
    assert b[0] == 0xF0 + q0 && b[1] == 0x80 + q1 && b[2] == 0x80 + q2 && b[3] == 0x80 + q3;
    assert Need(b[0]) == 4;
    assert ContinuationOk(b[0], 1, b[1]);
    assert ContinuationOk(b[0], 2, b[2]);
    assert ContinuationOk(b[0], 3, b[3]);
    assert Good(b, 1, 4) == 4;
    assert Combine(b, 4) == c;
    assert b[4..] == rest;
  }

  lemma EncodeCharUnits(c: char, rest: seq<Byte>)
    ensures Units(EncodeChar(c) + rest) == [Char(c)] + Units(rest)
  {
    var n := c as int;
    if n < 0x80 {
      EncodeCharUnits1(c, rest);
    } else if n < 0x800 {
      EncodeCharUnits2(c, rest);
    } else if n < 0x10000 {
      EncodeCharUnits3(c, rest);
    } else {
      EncodeCharUnits4(c, rest);
    }
  }

  function Chars(s: string): (r: seq<Unit>)
    ensures |r| == |s| && forall i :: 0 <= i < |s| ==> r[i] == Char(s[i])
  {
    seq(|s|, i requires 0 <= i < |s| => Char(s[i]))
  }

  lemma {:induction false} UnitsOfEncode(s: string)
    ensures Units(Encode(s)) == Chars(s)
  {
    if s != [] {
      EncodeCharUnits(s[0], Encode(s[1..]));
      UnitsOfEncode(s[1..]);
    }
  }

  lemma {:induction false} UnitsTextChars(s: string)
    ensures UnitsText(Chars(s)) == s
  {
    if s != [] {
      assert Chars(s)[1..] == Chars(s[1..]);
      UnitsTextChars(s[1..]);
    }
  }

  /** Decoding what was encoded gives back the string, strictly and with replacement. */
  lemma DecodeEncode(s: string)
    ensures Decode(Encode(s)) == Some(s)
    ensures DecodeReplace(Encode(s)) == s
  {
    UnitsOfEncode(s);
    UnitsTextChars(s);
  }
}
