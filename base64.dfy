/**
 * Base64 as Python's `base64` module implements it (RFC 4648, sections 4 and 5):
 * the encoders, and the lenient decoder of `binascii.a2b_base64`, which skips characters
 * outside the alphabet and stops at the first complete padding.
 */
module Base64 {
  import opened Wrappers
  import opened Utf8
  import Text

  type Sextet = v: int | 0 <= v < 64

  /** The character for a 6-bit value, in the standard (`+/`) or URL-safe (`-_`) alphabet. */
  function SextetChar(v: Sextet, urlsafe: bool): (c: char)
    ensures c as int < 0x80 && c != '=' && c != '%' && c != ' '
  {
    if v < 26 then ('A' as int + v) as char
    else if v < 52 then ('a' as int + v - 26) as char
    else if v < 62 then ('0' as int + v - 52) as char
    else if v == 62 then (if urlsafe then '-' else '+')
    else (if urlsafe then '_' else '/')
  }

  /** The value of a character of the standard alphabet; None for any other character. */
  function SextetValue(c: char): Option<Sextet> {
    if 'A' <= c <= 'Z' then Some(c as int - 'A' as int)
    else if 'a' <= c <= 'z' then Some(c as int - 'a' as int + 26)
    else if '0' <= c <= '9' then Some(c as int - '0' as int + 52)
    else if c == '+' then Some(62)
    else if c == '/' then Some(63)
    else None
  }

  /** `b64encode(b)` (`urlsafe_b64encode(b)` when `urlsafe`), padded with `=` to a multiple of 4. */
  function Encode(b: seq<Byte>, urlsafe: bool): (s: string)
    ensures |s| == (|b| + 2) / 3 * 4
    ensures forall i :: 0 <= i < |s| ==> s[i] as int < 0x80 && s[i] != '%' && s[i] != ' '
    decreases |b|
  {
    if |b| == 0 then ""
    else if |b| == 1 then
      [SextetChar(b[0] / 4, urlsafe), SextetChar((b[0] % 4) * 16, urlsafe), '=', '=']
    else if |b| == 2 then
      [SextetChar(b[0] / 4, urlsafe), SextetChar((b[0] % 4) * 16 + b[1] / 16, urlsafe),
       SextetChar((b[1] % 16) * 4, urlsafe), '=']
    else
      var group := [SextetChar(b[0] / 4, urlsafe), SextetChar((b[0] % 4) * 16 + b[1] / 16, urlsafe),
                    SextetChar((b[1] % 16) * 4 + b[2] / 64, urlsafe), SextetChar(b[2] % 64, urlsafe)];
      var rest := Encode(b[3..], urlsafe);
      assert forall i :: 0 <= i < |group + rest| ==> (group + rest)[i] == if i < 4 then group[i] else rest[i - 4];
      group + rest
  }

  function Prepend(bs: seq<Byte>, r: Result<seq<Byte>>): (o: Result<seq<Byte>>)
    ensures o.Ok? <==> r.Ok?
    ensures o.Ok? ==> o.value == bs + r.value
    ensures o.Raised? ==> o == r
  {
    match r
    case Ok(rest) => Ok(bs + rest)
    case Raised(m) => Raised(m)
  }

  /**
   * The non-strict loop of `a2b_base64`: `quad` characters of the current group seen so far,
   * `left` the bits not yet emitted, `pads` the `=` seen since the last data character, and
   * `produced` the number of bytes already written.
   */
  function A2B(s: string, quad: nat, left: int, pads: nat, produced: nat): (r: Result<seq<Byte>>)
    requires quad < 4
    requires quad == 0 ==> left == 0
    requires quad == 1 ==> 0 <= left < 64
    requires quad == 2 ==> 0 <= left < 16
    requires quad == 3 ==> 0 <= left < 4
    decreases |s|
  {
    if s == [] then
      if quad == 0 then Ok([])
      else if quad == 1 then
        Raised("Invalid base64-encoded string: number of data characters ("
          + Text.NatToString(produced / 3 * 4 + 1) + ") cannot be 1 more than a multiple of 4")
      else Raised("Incorrect padding")
    else if s[0] == '=' then
      if quad >= 2 && quad + pads + 1 >= 4 then Ok([])
      else A2B(s[1..], quad, left, if quad >= 2 then pads + 1 else pads, produced)
    else
      match SextetValue(s[0])
      case None => A2B(s[1..], quad, left, pads, produced)
      case Some(v) =>
        if quad == 0 then A2B(s[1..], 1, v, 0, produced)
        else if quad == 1 then Prepend([left * 4 + v / 16], A2B(s[1..], 2, v % 16, 0, produced + 1))
        else if quad == 2 then Prepend([left * 16 + v / 4], A2B(s[1..], 3, v % 4, 0, produced + 1))
        else Prepend([left * 64 + v], A2B(s[1..], 0, 0, 0, produced + 1))
  }

  predicate IsAscii(s: string) {
    forall i :: 0 <= i < |s| ==> s[i] as int < 0x80
  }

  const NonAsciiMessage := "string argument should contain only ASCII characters"

  /** `b64decode(s)` for a `str` argument. */
  function Decode(s: string): (r: Result<seq<Byte>>)
    ensures !IsAscii(s) ==> r == Raised(NonAsciiMessage)
  {
    if IsAscii(s) then A2B(s, 0, 0, 0, 0) else Raised(NonAsciiMessage)
  }

  /** `urlsafe_b64decode` first maps `-` to `+` and `_` to `/`. */
  function FromUrlsafe(s: string): (r: string)
    ensures |r| == |s|
    ensures forall i :: 0 <= i < |s| ==> r[i] == (if s[i] == '-' then '+' else if s[i] == '_' then '/' else s[i])
  {
    seq(|s|, i requires 0 <= i < |s| => if s[i] == '-' then '+' else if s[i] == '_' then '/' else s[i])
  }

  /** `urlsafe_b64decode(s)` for a `str` argument. */
  function UrlsafeDecode(s: string): (r: Result<seq<Byte>>)
    ensures !IsAscii(s) ==> r == Raised(NonAsciiMessage)
  {
    if IsAscii(s) then A2B(FromUrlsafe(s), 0, 0, 0, 0) else Raised(NonAsciiMessage)
  }

  lemma SextetRoundTrip(v: Sextet)
    ensures SextetValue(SextetChar(v, false)) == Some(v)
  {
  }

  /** The four characters `Encode` writes for a full group of three bytes. */
  function Group(x: Byte, y: Byte, z: Byte, urlsafe: bool): string {
    [SextetChar(x / 4, urlsafe), SextetChar((x % 4) * 16 + y / 16, urlsafe),
     SextetChar((y % 16) * 4 + z / 64, urlsafe), SextetChar(z % 64, urlsafe)]
  }

  lemma GroupBits(x: Byte, y: Byte, z: Byte)
    ensures var b := (x % 4) * 16 + y / 16;
      x / 4 * 4 + b / 16 == x && b % 16 * 16 + ((y % 16) * 4 + z / 64) / 4 == y
    ensures ((y % 16) * 4 + z / 64) % 4 * 64 + z % 64 == z
  {
  }

  /** One data character of the decoder's loop, in the group position `quad`. */
  lemma A2BData(s: string, quad: nat, left: int, produced: nat, v: Sextet)
    requires quad < 4
    requires quad == 0 ==> left == 0
    requires quad == 1 ==> 0 <= left < 64
    requires quad == 2 ==> 0 <= left < 16
    requires quad == 3 ==> 0 <= left < 4
    requires s != [] && SextetValue(s[0]) == Some(v)
    ensures A2B(s, quad, left, 0, produced) ==
      if quad == 0 then A2B(s[1..], 1, v, 0, produced)
      else if quad == 1 then Prepend([left * 4 + v / 16], A2B(s[1..], 2, v % 16, 0, produced + 1))
      else if quad == 2 then Prepend([left * 16 + v / 4], A2B(s[1..], 3, v % 4, 0, produced + 1))
      else Prepend([left * 64 + v], A2B(s[1..], 0, 0, 0, produced + 1))
  {
    assert s[0] != '=';
  }

  /** Four data characters decode to the three bytes their sextets spell. */
  lemma DecodeSextets(a: Sextet, b: Sextet, c: Sextet, d: Sextet, rest: string, produced: nat)
    ensures A2B([SextetChar(a, false), SextetChar(b, false), SextetChar(c, false), SextetChar(d, false)] + rest, 0, 0, 0, produced)
      == Prepend([a * 4 + b / 16, b % 16 * 16 + c / 4, c % 4 * 64 + d], A2B(rest, 0, 0, 0, produced + 3))
  {
    SextetRoundTrip(a);
    SextetRoundTrip(b);
    SextetRoundTrip(c);
    SextetRoundTrip(d);
    var s := [SextetChar(a, false), SextetChar(b, false), SextetChar(c, false), SextetChar(d, false)] + rest;
    var s1, s2, s3 := s[1..], s[2..], s[3..];
    assert s1[1..] == s2 && s2[1..] == s3 && s3[1..] == rest;
    assert s[0] == SextetChar(a, false) && s1[0] == SextetChar(b, false);
    assert s2[0] == SextetChar(c, false) && s3[0] == SextetChar(d, false);
    var tail := A2B(rest, 0, 0, 0, produced + 3);
    A2BData(s3, 3, c % 4, produced + 2, d);
    A2BData(s2, 2, b % 16, produced + 1, c);
    A2BData(s1, 1, a, produced, b);
    A2BData(s, 0, 0, produced, a);
    PrependThree(a * 4 + b / 16, b % 16 * 16 + c / 4, c % 4 * 64 + d, tail);
  }

  lemma DecodeGroup(x: Byte, y: Byte, z: Byte, rest: string, produced: nat)
    ensures A2B(Group(x, y, z, false) + rest, 0, 0, 0, produced)
      == Prepend([x, y, z], A2B(rest, 0, 0, 0, produced + 3))
  {
    var a, b, c, d := x / 4, (x % 4) * 16 + y / 16, (y % 16) * 4 + z / 64, z % 64;
    GroupBits(x, y, z);
    DecodeSextets(a, b, c, d, rest, produced);
    assert [a * 4 + b / 16, b % 16 * 16 + c / 4, c % 4 * 64 + d] == [x, y, z];
  }

  lemma PrependThree(x: Byte, y: Byte, z: Byte, r: Result<seq<Byte>>)
    ensures Prepend([x], Prepend([y], Prepend([z], r))) == Prepend([x, y, z], r)
  {
    if r.Ok? {
      assert [x] + ([y] + ([z] + r.value)) == [x, y, z] + r.value;
    }
  }

  lemma SplitThree<T>(b: seq<T>)
    requires |b| >= 3
    ensures [b[0], b[1], b[2]] + b[3..] == b
  {
  }

  lemma EncodeUnfold(b: seq<Byte>, urlsafe: bool)
    requires |b| >= 3
    ensures Encode(b, urlsafe) == Group(b[0], b[1], b[2], urlsafe) + Encode(b[3..], urlsafe)
  {
  }

  lemma DecodeTail1(b: seq<Byte>, produced: nat)
    requires |b| == 1
    ensures A2B(Encode(b, false), 0, 0, 0, produced) == Ok(b)
  {
    var e := Encode(b, false);
    var x := b[0];
    var a, v := x / 4, (x % 4) * 16;
    SextetRoundTrip(a);
    SextetRoundTrip(v);
    assert a * 4 + v / 16 == x;
    var e1, e2, e3 := e[1..], e[2..], e[3..];
    assert e1[1..] == e2 && e2[1..] == e3 && e2 == "==" && e3 == "=";
    assert A2B(e3, 2, v % 16, 1, produced + 1) == Ok([]);
    assert A2B(e2, 2, v % 16, 0, produced + 1) == Ok([]);
    assert A2B(e1, 1, a, 0, produced) == Prepend([x], Ok([]));
    assert e[0] == SextetChar(a, false);
    assert A2B(e, 0, 0, 0, produced) == A2B(e1, 1, a, 0, produced);
    assert [x] + [] == b;
  }

  lemma DecodeTail2(b: seq<Byte>, produced: nat)
    requires |b| == 2
    ensures A2B(Encode(b, false), 0, 0, 0, produced) == Ok(b)
  {
    var e := Encode(b, false);
    var x, y := b[0], b[1];
    var a, v, w := x / 4, (x % 4) * 16 + y / 16, (y % 16) * 4;
    SextetRoundTrip(a);
    SextetRoundTrip(v);
    SextetRoundTrip(w);
    assert a * 4 + v / 16 == x && (v % 16) * 16 + w / 4 == y;
    var e1, e2, e3 := e[1..], e[2..], e[3..];
    assert e1[1..] == e2 && e2[1..] == e3 && e3 == "=";
    assert A2B(e3, 3, w % 4, 0, produced + 2) == Ok([]);
    assert A2B(e2, 2, v % 16, 0, produced + 1) == Prepend([y], Ok([]));
    assert A2B(e1, 1, a, 0, produced) == Prepend([x], Prepend([y], Ok([])));
    assert [x] + ([y] + []) == b;
  }

  lemma {:induction false} DecodeEncodeFrom(b: seq<Byte>, produced: nat)
    ensures A2B(Encode(b, false), 0, 0, 0, produced) == Ok(b)
    decreases |b|
  {
    if |b| == 1 {
      DecodeTail1(b, produced);
    } else if |b| == 2 {
      DecodeTail2(b, produced);
    } else if |b| >= 3 {
      var rest := Encode(b[3..], false);
      EncodeUnfold(b, false);
      DecodeGroup(b[0], b[1], b[2], rest, produced);
      DecodeEncodeFrom(b[3..], produced + 3);
      SplitThree(b);
    }
  }

  lemma FromUrlsafeConcat(a: string, b: string)
    ensures FromUrlsafe(a + b) == FromUrlsafe(a) + FromUrlsafe(b)
  {
  }

  lemma FromUrlsafeOne(x: Byte)
    ensures FromUrlsafe(Encode([x], true)) == Encode([x], false)
  {
    var u, s := Encode([x], true), Encode([x], false);
    UrlsafeChar(x / 4);
    UrlsafeChar((x % 4) * 16);
    forall i | 0 <= i < 4 ensures FromUrlsafe(u)[i] == s[i] {
    }
  }

  lemma FromUrlsafeTwo(x: Byte, y: Byte)
    ensures FromUrlsafe(Encode([x, y], true)) == Encode([x, y], false)
  {
    var u, s := Encode([x, y], true), Encode([x, y], false);
    UrlsafeChar(x / 4);
    UrlsafeChar((x % 4) * 16 + y / 16);
    UrlsafeChar((y % 16) * 4);
    forall i | 0 <= i < 4 ensures FromUrlsafe(u)[i] == s[i] {
    }
  }

  lemma FromUrlsafeShort(b: seq<Byte>)
    requires |b| < 3
    ensures FromUrlsafe(Encode(b, true)) == Encode(b, false)
  {
    if |b| == 1 {
      assert b == [b[0]];
      FromUrlsafeOne(b[0]);
    } else if |b| == 2 {
      assert b == [b[0], b[1]];
      FromUrlsafeTwo(b[0], b[1]);
    }
  }

  lemma FromUrlsafeGroup(x: Byte, y: Byte, z: Byte)
    ensures FromUrlsafe(Group(x, y, z, true)) == Group(x, y, z, false)
  {
    UrlsafeChar(x / 4);
    UrlsafeChar((x % 4) * 16 + y / 16);
    UrlsafeChar((y % 16) * 4 + z / 64);
    UrlsafeChar(z % 64);
  }

  lemma UrlsafeChar(v: Sextet)
    ensures var c := SextetChar(v, true);
      (if c == '-' then '+' else if c == '_' then '/' else c) == SextetChar(v, false)
  {
  }

  /** The URL-safe encoding maps back to the standard one character by character. */
  lemma {:induction false} FromUrlsafeEncode(b: seq<Byte>)
    ensures FromUrlsafe(Encode(b, true)) == Encode(b, false)
    decreases |b|
  {
    if |b| < 3 {
      FromUrlsafeShort(b);
    } else {
      EncodeUnfold(b, true);
      EncodeUnfold(b, false);
      FromUrlsafeConcat(Group(b[0], b[1], b[2], true), Encode(b[3..], true));
      FromUrlsafeGroup(b[0], b[1], b[2]);
      FromUrlsafeEncode(b[3..]);
    }
  }

  /** `urlsafe_b64decode(urlsafe_b64encode(b)) == b`. */
  lemma UrlsafeRoundTrip(b: seq<Byte>)
    ensures UrlsafeDecode(Encode(b, true)) == Ok(b)
  {
    FromUrlsafeEncode(b);
    DecodeEncodeFrom(b, 0);
  }

  /** `b64decode(b64encode(b)) == b`. */
  lemma RoundTrip(b: seq<Byte>)
    ensures Decode(Encode(b, false)) == Ok(b)
  {
    DecodeEncodeFrom(b, 0);
  }
}
