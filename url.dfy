/**
 * The `urllib.parse` functions the proxy uses: `quote_plus`, `urlencode`, `unquote` and
 * `parse_qsl`, for `str` arguments and the default UTF-8 encoding.
 */
module Url {
  import opened Wrappers
  import opened Text
  import opened Utf8
  import opened PyDict

  /** Bytes `quote` never escapes: ASCII letters, digits and `_.-~`. */
  predicate AlwaysSafe(b: Byte) {
    ('A' as int <= b <= 'Z' as int) || ('a' as int <= b <= 'z' as int) || ('0' as int <= b <= '9' as int)
    || b == '_' as int || b == '.' as int || b == '-' as int || b == '~' as int
  }

  function HexUpper(d: int): (c: char)
    requires 0 <= d < 16
  {
    if d < 10 then ('0' as int + d) as char else ('A' as int + d - 10) as char
  }

  /** How `quote_plus` writes one byte of the UTF-8 encoding. */
  function QuoteByte(b: Byte): (r: string)
    ensures |r| == 1 || |r| == 3
    ensures forall i :: 0 <= i < |r| ==> r[i] as int < 0x80 && r[i] != '&' && r[i] != '='
  {
    if AlwaysSafe(b) then [b as char]
    else if b == ' ' as int then "+"
    else ['%', HexUpper(b / 16), HexUpper(b % 16)]
  }

  function QuoteBytes(bs: seq<Byte>): (r: string)
    ensures |r| >= |bs|
    ensures forall i :: 0 <= i < |r| ==> r[i] as int < 0x80 && r[i] != '&' && r[i] != '='
  {
    if bs == [] then [] else QuoteByte(bs[0]) + QuoteBytes(bs[1..])
  }

  /** `quote_plus(s)`: spaces become `+`, every other byte outside the safe set becomes `%XX`. */
  function QuotePlus(s: string): (r: string)
    ensures |r| >= |s|
    ensures forall i :: 0 <= i < |r| ==> r[i] as int < 0x80 && r[i] != '&' && r[i] != '='
  {
    QuoteBytes(Encode(s))
  }

  function EncodePairs(ps: seq<(string, string)>): (r: seq<string>)
    ensures |r| == |ps|
    ensures forall i :: 0 <= i < |ps| ==> r[i] == QuotePlus(ps[i].0) + "=" + QuotePlus(ps[i].1)
  {
    if ps == [] then [] else [QuotePlus(ps[0].0) + "=" + QuotePlus(ps[0].1)] + EncodePairs(ps[1..])
  }

  /** `urlencode(d)`: `key=value` pairs in dictionary order, joined by `&`. */
  function UrlEncode(ps: seq<(string, string)>): string {
    Join("&", EncodePairs(ps))
  }

  /** `unquote_to_bytes` on an ASCII run: `%` and two hex digits give that byte, anything else stays. */
  function PercentBytes(t: string): (r: seq<Byte>)
    requires forall i :: 0 <= i < |t| ==> t[i] as int < 0x80
    ensures |r| <= |t|
    decreases |t|
  {
    if t == [] then []
    else if t[0] == '%' && |t| >= 3 && IsHexDigit(t[1]) && IsHexDigit(t[2]) then
      [HexDigitValue(t[1]) * 16 + HexDigitValue(t[2])] + PercentBytes(t[3..])
    else [t[0] as int] + PercentBytes(t[1..])
  }

  /** The length of the longest prefix of `s` made of ASCII characters. */
  function AsciiRun(s: string): (k: nat)
    ensures k <= |s|
    ensures forall i :: 0 <= i < k ==> s[i] as int < 0x80
    ensures k < |s| ==> s[k] as int >= 0x80
  {
    if s == [] || s[0] as int >= 0x80 then 0 else 1 + AsciiRun(s[1..])
  }

  /** Each maximal ASCII run is percent-decoded and read as UTF-8 with replacement; other characters stay. */
  function UnquoteRuns(s: string): (r: string)
    ensures s != [] ==> r != []
    decreases |s|
  {
    if s == [] then []
    else if s[0] as int < 0x80 then
      var k := AsciiRun(s);
      DecodeReplace(PercentBytes(s[..k])) + UnquoteRuns(s[k..])
    else [s[0]] + UnquoteRuns(s[1..])
  }

  /** `unquote(s)`: a string without `%` is returned as it is. */
  function Unquote(s: string): (r: string)
    ensures '%' !in s ==> r == s
    ensures s != [] ==> r != []
  {
    if '%' !in s then s else UnquoteRuns(s)
  }

  /** `s.replace("+", " ")`. */
  function PlusToSpace(s: string): (r: string)
    ensures |r| == |s|
    ensures forall i :: 0 <= i < |s| ==> r[i] == (if s[i] == '+' then ' ' else s[i])
  {
    seq(|s|, i requires 0 <= i < |s| => if s[i] == '+' then ' ' else s[i])
  }

  /** Replacing a one-character pattern is a character map. */
  lemma {:induction false} ReplacePlusIsMap(s: string)
    ensures Replace(s, "+", " ") == PlusToSpace(s)
    decreases |s|
  {
    if s != [] {
      ReplacePlusIsMap(s[1..]);
      assert PlusToSpace(s) == [if s[0] == '+' then ' ' else s[0]] + PlusToSpace(s[1..]);
      if "+" <= s {
        assert s[|"+"|..] == s[1..];
      }
    }
  }

  /** `unquote_plus`, as `parse_qsl` applies it to names and values. */
  function UnquotePlus(s: string): string {
    Unquote(PlusToSpace(s))
  }

  /** One field of `parse_qsl`: None for a field it skips (empty, without `=`, or with an empty value). */
  function ParseField(f: string): (r: Option<(string, string)>)
    ensures r.Some? ==> Contains(f, "=")
  {
    match SplitOnce(f, "=")
    case None => None
    case Some((name, value)) =>
      if value == "" then None else Some((UnquotePlus(name), UnquotePlus(value)))
  }

  function ParseFields(fs: seq<string>): seq<(string, string)> {
    if fs == [] then []
    else match ParseField(fs[0])
      case None => ParseFields(fs[1..])
      case Some(p) => [p] + ParseFields(fs[1..])
  }

  /** `parse_qsl(qs)` with its defaults: blank values and fields without `=` are dropped. */
  function ParseQsl(qs: string): seq<(string, string)> {
    if qs == "" then [] else ParseFields(Split(qs, "&"))
  }

  // ---------------------------------------------------------------------------
  // parse_qsl(urlencode(pairs)) == pairs
  // ---------------------------------------------------------------------------

  /** `quote_plus` with `+` already turned back into a space. */
  function SpacedByte(b: Byte): string {
    if AlwaysSafe(b) then [b as char]
    else if b == ' ' as int then " "
    else ['%', HexUpper(b / 16), HexUpper(b % 16)]
  }

  function SpacedBytes(bs: seq<Byte>): (r: string)
    ensures forall i :: 0 <= i < |r| ==> r[i] as int < 0x80
  {
    if bs == [] then [] else SpacedByte(bs[0]) + SpacedBytes(bs[1..])
  }

  lemma {:induction false} PlusToSpaceQuoted(bs: seq<Byte>)
    ensures PlusToSpace(QuoteBytes(bs)) == SpacedBytes(bs)
    decreases |bs|
  {
    if bs != [] {
      PlusToSpaceQuoted(bs[1..]);
      var q := QuoteByte(bs[0]);
      assert PlusToSpace(q + QuoteBytes(bs[1..])) == PlusToSpace(q) + PlusToSpace(QuoteBytes(bs[1..]));
      assert PlusToSpace(q) == SpacedByte(bs[0]);
    }
  }

  lemma HexRoundTrip(b: Byte)
    ensures IsHexDigit(HexUpper(b / 16)) && IsHexDigit(HexUpper(b % 16))
    ensures HexDigitValue(HexUpper(b / 16)) * 16 + HexDigitValue(HexUpper(b % 16)) == b
  {
  }

  /** The escape of one byte, followed by more ASCII text, reads back as that byte first. */
  lemma PercentSpacedByte(b: Byte, rest: string)
    requires forall i :: 0 <= i < |rest| ==> rest[i] as int < 0x80
    ensures var t := SpacedByte(b) + rest;
      && (forall i :: 0 <= i < |t| ==> t[i] as int < 0x80)
      && PercentBytes(t) == [b] + PercentBytes(rest)
  {
    var p := SpacedByte(b);
    var t := p + rest;
    assert t[|p|..] == rest;
    if AlwaysSafe(b) || b == ' ' as int {
      assert t[0] != '%';
    } else {
      HexRoundTrip(b);
      assert t[0] == '%' && t[1] == p[1] && t[2] == p[2];
    }
  }

  lemma {:induction false} PercentSpaced(bs: seq<Byte>)
    ensures PercentBytes(SpacedBytes(bs)) == bs
    decreases |bs|
  {
    if bs != [] {
      PercentSpaced(bs[1..]);
      PercentSpacedByte(bs[0], SpacedBytes(bs[1..]));
      assert bs == [bs[0]] + bs[1..];
    }
  }

  lemma {:induction false} AllAsciiRun(t: string)
    requires forall i :: 0 <= i < |t| ==> t[i] as int < 0x80
    ensures AsciiRun(t) == |t|
    decreases |t|
  {
    if t != [] {
      AllAsciiRun(t[1..]);
    }
  }

  /** When no byte needed a `%`, every byte was a safe ASCII character or a space. */
  lemma {:induction false} SpacedWithoutPercent(s: string)
    requires '%' !in SpacedBytes(Encode(s))
    ensures SpacedBytes(Encode(s)) == s
    decreases |s|
  {
    if s != [] {
      var e := EncodeChar(s[0]);
      assert Encode(s) == e + Encode(s[1..]);
      SpacedConcat(e, Encode(s[1..]));
      var first := SpacedBytes(e);
      assert first <= SpacedBytes(Encode(s));
      NoPercentAscii(s[0]);
      SpacedWithoutPercent(s[1..]);
    }
  }

  lemma NoPercentAscii(c: char)
    requires '%' !in SpacedBytes(EncodeChar(c))
    ensures SpacedBytes(EncodeChar(c)) == [c]
  {
    var e := EncodeChar(c);
    assert SpacedByte(e[0]) <= SpacedBytes(e);
    assert SpacedBytes(e)[0] != '%';
  }

  lemma {:induction false} SpacedConcat(a: seq<Byte>, b: seq<Byte>)
    ensures SpacedBytes(a + b) == SpacedBytes(a) + SpacedBytes(b)
    decreases |a|
  {
    if a != [] {
      assert (a + b)[0] == a[0] && (a + b)[1..] == a[1..] + b;
      SpacedConcat(a[1..], b);
    } else {
      assert a + b == b;
    }
  }

  lemma UnquoteSpacedWithPercent(s: string)
    requires '%' in SpacedBytes(Encode(s))
    ensures Unquote(SpacedBytes(Encode(s))) == s
  {
    var t := SpacedBytes(Encode(s));
    AllAsciiRun(t);
    assert t[..|t|] == t && t[|t|..] == [];
    assert Unquote(t) == DecodeReplace(PercentBytes(t)) + UnquoteRuns([]);
    PercentSpaced(Encode(s));
    DecodeEncode(s);
  }

  /** `unquote_plus(quote_plus(s)) == s`. */
  lemma UnquotePlusQuotePlus(s: string)
    ensures UnquotePlus(QuotePlus(s)) == s
  {
    PlusToSpaceQuoted(Encode(s));
    if '%' in SpacedBytes(Encode(s)) {
      UnquoteSpacedWithPercent(s);
    } else {
      SpacedWithoutPercent(s);
    }
  }

  lemma SplitOnceAtFirst(k: string, v: string)
    requires '=' !in k
    ensures SplitOnce(k + "=" + v, "=") == Some((k, v))
  {
    var s := k + "=" + v;
    assert OccursAt(s, "=", |k|) by {
      assert s[|k|..|k| + 1] == "=";
    }
    forall j | 0 <= j < |k| ensures !OccursAt(s, "=", j) {
      assert s[j..j + 1] == [k[j]];
    }
    var i := FindFirst(s, "=").value;
    assert i == |k|;
    assert s[..i] == k && s[i + 1..] == v;
  }

  /** One `key=value` field written by `urlencode` is read back as the pair it came from. */
  lemma ParseEncodedField(k: string, v: string)
    requires v != ""
    ensures ParseField(QuotePlus(k) + "=" + QuotePlus(v)) == Some((k, v))
  {
    SplitOnceAtFirst(QuotePlus(k), QuotePlus(v));
    UnquotePlusQuotePlus(k);
    UnquotePlusQuotePlus(v);
  }

  lemma ParseFieldsFirst(fs: seq<string>, p: (string, string))
    requires fs != [] && ParseField(fs[0]) == Some(p)
    ensures ParseFields(fs) == [p] + ParseFields(fs[1..])
  {
  }

  lemma {:induction false} ParseEncodedFields(ps: seq<(string, string)>)
    requires forall i :: 0 <= i < |ps| ==> ps[i].1 != ""
    ensures ParseFields(EncodePairs(ps)) == ps
    decreases |ps|
  {
    if ps != [] {
      var fs := EncodePairs(ps);
      assert fs[1..] == EncodePairs(ps[1..]);
      ParseEncodedField(ps[0].0, ps[0].1);
      ParseEncodedFields(ps[1..]);
      ParseFieldsFirst(fs, ps[0]);
      assert ps == [ps[0]] + ps[1..];
    }
  }

  /** `urlencode` of at least one pair is not empty, and splitting it at `&` gives back its fields. */
  lemma UrlEncodeSplits(ps: seq<(string, string)>)
    requires ps != []
    ensures UrlEncode(ps) != "" && Split(UrlEncode(ps), "&") == EncodePairs(ps)
  {
    var items := EncodePairs(ps);
    SplitJoin(items, '&');
    assert '=' in items[0];
    if |items| > 1 {
      assert Join("&", items) == items[0] + "&" + Join("&", items[1..]);
    }
  }

  /** `parse_qsl(urlencode(pairs)) == pairs` whenever no value is empty (`parse_qsl` drops blank values). */
  lemma ParseQslUrlEncode(ps: seq<(string, string)>)
    requires forall i :: 0 <= i < |ps| ==> ps[i].1 != ""
    ensures ParseQsl(UrlEncode(ps)) == ps
  {
    if ps != [] {
      UrlEncodeSplits(ps);
      ParseEncodedFields(ps);
    }
  }
}
