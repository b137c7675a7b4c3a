/**
 * JSON text as Python's `json` module reads and writes it: `json.dumps` with its defaults
 * (`ensure_ascii`, separators `", "` and `": "`) for an object of strings, and `json.loads`
 * with the C scanner's grammar (NaN and Infinity accepted, control characters in strings refused,
 * `\uXXXX` surrogate pairs joined, later duplicate keys winning).
 */
module JsonText {
  import opened Wrappers
  import opened PyDict
  import opened Json
  import opened Text

  // ---------------------------------------------------------------------------
  // json.dumps
  // ---------------------------------------------------------------------------

  function HexLower(d: int): (c: char)
    requires 0 <= d < 16
  {
    if d < 10 then ('0' as int + d) as char else ('a' as int + d - 10) as char
  }

  /** `\uXXXX` with four lower-case hex digits. */
  function U4(n: int): (r: string)
    requires 0 <= n < 0x10000
    ensures |r| == 6
  {
    ['\\', 'u', HexLower(n / 4096), HexLower(n / 256 % 16), HexLower(n / 16 % 16), HexLower(n % 16)]
  }

  /** One character as `ensure_ascii` writes it: printable ASCII stays, the rest is escaped. */
  function EscapeChar(c: char): (r: string)
    ensures r != []
  {
    if c == '"' then "\\\""
    else if c == '\\' then "\\\\"
    else if c == '\n' then "\\n"
    else if c == '\r' then "\\r"
    else if c == '\t' then "\\t"
    else if c == '\U{8}' then "\\b"
    else if c == '\U{C}' then "\\f"
    else if ' ' <= c <= '~' then [c]
    else if (c as int) < 0x10000 then U4(c as int)
    else SurrogatePair(c)
  }

  /** A character outside the Basic Multilingual Plane, as a UTF-16 surrogate pair of escapes. */
  function SurrogatePair(c: char): (r: string)
    requires (c as int) >= 0x10000
    ensures |r| == 12
  {
    var v := c as int - 0x10000;
    U4(0xD800 + v / 1024) + U4(0xDC00 + v % 1024)
  }

  function EscapeAll(s: string): string {
    if s == [] then [] else EscapeChar(s[0]) + EscapeAll(s[1..])
  }

  /** `json.dumps(s)` for a string. */
  function Quote(s: string): string {
    "\"" + EscapeAll(s) + "\""
  }

  /** `json.dumps(d)` for a dictionary of strings. */
  function DumpsStrings(d: Dict<string>): string {
    "{" + Members(d) + "}"
  }

  /** One `"key": "value"` member as `json.dumps` writes it. */
  function Member(k: string, v: string): string {
    Quote(k) + ": " + Quote(v)
  }

  /** The members of an object, separated by `", "`. */
  function Members(d: Dict<string>): string {
    if d == [] then ""
    else if |d| == 1 then Member(d[0].0, d[0].1)
    else Member(d[0].0, d[0].1) + (", " + Members(d[1..]))
  }

  /**
   * The text Python writes for the float a literal loads as, given its spellings of NaN and
   * infinity (`NaN`/`Infinity` for `json.dumps`, `nan`/`inf` for `str`). Literals that overflow
   * or underflow are written as infinity or as a signed zero; any other literal keeps its text.
   */
  function FloatText(t: string, nan: string, inf: string): string {
    var sign := if t != [] && t[0] == '-' then "-" else "";
    if t == "NaN" then nan
    else if t == "Infinity" then inf
    else if t == "-Infinity" then "-" + inf
    else if RoundsToInfinity(t) then sign + inf
    else if RoundsToZero(t) then sign + "0.0"
    else t
  }

  /**
   * `json.dumps(v)` with its defaults. A float is written as `FloatText` gives it.
   */
  function Dumps(v: Value): string
    decreases v
  {
    match v
    case Null => "null"
    case Bool(b) => if b then "true" else "false"
    case Int(i) => IntToString(i)
    case Float(t) => FloatText(t, "NaN", "Infinity")
    case Str(x) => Quote(x)
    case Arr(items) => "[" + Join(", ", seq(|items|, i requires 0 <= i < |items| => Dumps(items[i]))) + "]"
    case Obj(fields) =>
      "{" + Join(", ", seq(|fields|, i requires 0 <= i < |fields| => Quote(fields[i].0) + ": " + Dumps(fields[i].1))) + "}"
  }

  // ---------------------------------------------------------------------------
  // json.loads
  // ---------------------------------------------------------------------------

  /**
   * Why `json.loads` gives no value the model can hold: malformed text (JSONDecodeError), an
   * integer of more than 4300 digits (ValueError), or an unpaired surrogate escape, which Python
   * keeps inside a `str` and a Dafny string cannot hold.
   */
  datatype LoadError = Malformed | IntTooLong | Unpaired

  datatype Scan<+T> = Scanned(value: T, rest: string) | Failed(error: LoadError)

  predicate IsWs(c: char) { c == ' ' || c == '\t' || c == '\n' || c == '\r' }

  function SkipWs(s: string): (r: string)
    ensures |r| <= |s| && r == s[|s| - |r|..]
    ensures r != [] ==> !IsWs(r[0])
  {
    if s != [] && IsWs(s[0]) then SkipWs(s[1..]) else s
  }

  predicate Hex4(s: string) {
    |s| >= 4 && IsHexDigit(s[0]) && IsHexDigit(s[1]) && IsHexDigit(s[2]) && IsHexDigit(s[3])
  }

  function Hex4Value(s: string): (n: int)
    requires Hex4(s)
    ensures 0 <= n < 0x10000
  {
    HexDigitValue(s[0]) * 4096 + HexDigitValue(s[1]) * 256 + HexDigitValue(s[2]) * 16 + HexDigitValue(s[3])
  }

  predicate IsHighSurrogate(n: int) { 0xD800 <= n <= 0xDBFF }
  predicate IsLowSurrogate(n: int) { 0xDC00 <= n <= 0xDFFF }

  /** One backslash escape at the head of `s` (which starts with `\`). */
  function ScanEscape(s: string): (r: Scan<char>)
    requires s != [] && s[0] == '\\'
    ensures r.Scanned? ==> |r.rest| < |s| - 1
  {
    if |s| < 2 then Failed(Malformed)
    else if s[1] == '"' then Scanned('"', s[2..])
    else if s[1] == '\\' then Scanned('\\', s[2..])
    else if s[1] == '/' then Scanned('/', s[2..])
    else if s[1] == 'b' then Scanned('\U{8}', s[2..])
    else if s[1] == 'f' then Scanned('\U{C}', s[2..])
    else if s[1] == 'n' then Scanned('\n', s[2..])
    else if s[1] == 'r' then Scanned('\r', s[2..])
    else if s[1] == 't' then Scanned('\t', s[2..])
    else if s[1] != 'u' || !Hex4(s[2..]) then Failed(Malformed)
    else
      var c := Hex4Value(s[2..]);
      if IsHighSurrogate(c) && |s| >= 12 && s[6] == '\\' && s[7] == 'u' then
        if !Hex4(s[8..]) then Failed(Malformed)
        else
          var c2 := Hex4Value(s[8..]);
          if IsLowSurrogate(c2) then Scanned((0x10000 + (c - 0xD800) * 1024 + (c2 - 0xDC00)) as char, s[12..])
          else Failed(Unpaired)
      else if IsHighSurrogate(c) || IsLowSurrogate(c) then Failed(Unpaired)
      else Scanned(c as char, s[6..])
  }

  function Cons(c: char, r: Scan<string>): (o: Scan<string>)
    ensures r.Scanned? ==> o == Scanned([c] + r.value, r.rest)
    ensures r.Failed? ==> o == r
  {
    match r
    case Scanned(x, rest) => Scanned([c] + x, rest)
    case Failed(e) => Failed(e)
  }

  /** The body of a string literal, after its opening quote, up to and including the closing quote. */
  function ScanString(s: string): (r: Scan<string>)
    ensures r.Scanned? ==> |r.rest| < |s|
    decreases |s|
  {
    if s == [] then Failed(Malformed)
    else if s[0] == '"' then Scanned([], s[1..])
    else if (s[0] as int) < 0x20 then Failed(Malformed)
    else if s[0] != '\\' then Cons(s[0], ScanString(s[1..]))
    else
      match ScanEscape(s)
      case Failed(e) => Failed(e)
      case Scanned(c, rest) => Cons(c, ScanString(rest))
  }

  function DigitRun(s: string): (k: nat)
    ensures k <= |s|
    ensures forall i :: 0 <= i < k ==> IsDigit(s[i])
    ensures k < |s| ==> !IsDigit(s[k])
  {
    if s != [] && IsDigit(s[0]) then 1 + DigitRun(s[1..]) else 0
  }

  /** Python refuses to convert an integer literal of more than this many digits. */
  const MaxIntDigits := 4300

  /** The length of a fraction `.[0-9]+` at the head of `s`, or 0 when there is none. */
  function FracLen(s: string): (k: nat)
    ensures k <= |s|
  {
    if |s| >= 2 && s[0] == '.' && IsDigit(s[1]) then 1 + DigitRun(s[1..]) else 0
  }

  /** The length of an exponent `[eE][-+]?[0-9]+` at the head of `s`, or 0 when there is none. */
  function ExpLen(s: string): (k: nat)
    ensures k <= |s|
  {
    if s != [] && (s[0] == 'e' || s[0] == 'E') then
      var signLen := if |s| >= 2 && (s[1] == '-' || s[1] == '+') then 1 else 0;
      var digits := DigitRun(s[1 + signLen..]);
      if digits > 0 then 1 + signLen + digits else 0
    else 0
  }

  /**
   * A number at the head of `s`: `-?(0|[1-9][0-9]*)(\.[0-9]+)?([eE][-+]?[0-9]+)?`; an integer
   * unless a fraction or an exponent was read.
   */
  function ScanNumber(s: string): (r: Scan<Value>)
    ensures r.Scanned? ==> |r.rest| < |s|
  {
    var sign := if s != [] && s[0] == '-' then 1 else 0;
    var t := s[sign..];
    if t == [] || !IsDigit(t[0]) then Failed(Malformed)
    else
      var intLen := if t[0] == '0' then 1 else DigitRun(t);
      var fracLen := FracLen(t[intLen..]);
      var expLen := ExpLen(t[intLen + fracLen..]);
      var len := sign + intLen + fracLen + expLen;
      if fracLen > 0 || expLen > 0 then Scanned(Float(s[..len]), s[len..])
      else if intLen > MaxIntDigits then Failed(IntTooLong)
      else
        var n: int := DigitsValue(t[..intLen]);
        Scanned(Int(if sign == 1 then -n else n), s[len..])
  }

  /** One JSON value at the head of `s` (no leading whitespace). */
  function ScanValue(s: string): (r: Scan<Value>)
    ensures r.Scanned? ==> |r.rest| < |s|
    decreases |s|, 0
  {
    if s == [] then Failed(Malformed)
    else if s[0] == '"' then
      match ScanString(s[1..])
      case Scanned(x, rest) => Scanned(Str(x), rest)
      case Failed(e) => Failed(e)
    else if s[0] == '{' then ScanObject(s[1..])
    else if s[0] == '[' then ScanArray(s[1..])
    else if "null" <= s then Scanned(Null, s[4..])
    else if "true" <= s then Scanned(Bool(true), s[4..])
    else if "false" <= s then Scanned(Bool(false), s[5..])
    else if "NaN" <= s then Scanned(Float("NaN"), s[3..])
    else if "Infinity" <= s then Scanned(Float("Infinity"), s[8..])
    else if "-Infinity" <= s then Scanned(Float("-Infinity"), s[9..])
    else ScanNumber(s)
  }

  /** An object after its `{`. */
  function ScanObject(s: string): (r: Scan<Value>)
    ensures r.Scanned? ==> |r.rest| < |s|
    decreases |s|, 2
  {
    var t := SkipWs(s);
    if t != [] && t[0] == '}' then Scanned(Obj([]), t[1..])
    else ScanMembers(t, [])
  }

  /** The members of an object from a key onwards; `seen` holds the members already read. */
  function ScanMembers(t: string, seen: seq<(string, Value)>): (r: Scan<Value>)
    ensures r.Scanned? ==> |r.rest| < |t|
    decreases |t|, 1
  {
    if t == [] || t[0] != '"' then Failed(Malformed)
    else
      match ScanString(t[1..])
      case Failed(e) => Failed(e)
      case Scanned(key, afterKey) =>
        var colon := SkipWs(afterKey);
        if colon == [] || colon[0] != ':' then Failed(Malformed)
        else
          match ScanValue(SkipWs(colon[1..]))
          case Failed(e) => Failed(e)
          case Scanned(v, afterValue) => MembersAfter(afterValue, seen + [(key, v)])
  }

  /** The rest of an object once a member has been read, from the text after its value. */
  function MembersAfter(afterValue: string, members: seq<(string, Value)>): (r: Scan<Value>)
    ensures r.Scanned? ==> |r.rest| < |afterValue|
    decreases |afterValue|, 0
  {
    var u := SkipWs(afterValue);
    if u != [] && u[0] == '}' then Scanned(Obj(FromPairs(members)), u[1..])
    else if u == [] || u[0] != ',' then Failed(Malformed)
    else ScanMembers(SkipWs(u[1..]), members)
  }

  /** An array after its `[`. */
  function ScanArray(s: string): (r: Scan<Value>)
    ensures r.Scanned? ==> |r.rest| < |s|
    decreases |s|, 2
  {
    var t := SkipWs(s);
    if t != [] && t[0] == ']' then Scanned(Arr([]), t[1..])
    else ScanElements(t, [])
  }

  function ScanElements(t: string, seen: seq<Value>): (r: Scan<Value>)
    ensures r.Scanned? ==> |r.rest| < |t|
    decreases |t|, 1
  {
    match ScanValue(t)
    case Failed(e) => Failed(e)
    case Scanned(v, afterValue) =>
      var items := seen + [v];
      var u := SkipWs(afterValue);
      if u != [] && u[0] == ']' then Scanned(Arr(items), u[1..])
      else if u == [] || u[0] != ',' then Failed(Malformed)
      else ScanElements(SkipWs(u[1..]), items)
  }

  datatype Loaded = Loaded(value: Value) | NotLoaded(error: LoadError)

  /** `json.loads(text)`: one value, surrounded by whitespace only. */
  function Loads(text: string): Loaded {
    match ScanValue(SkipWs(text))
    case Failed(e) => NotLoaded(e)
    case Scanned(v, rest) => if SkipWs(rest) == [] then Loaded(v) else NotLoaded(Malformed)
  }

  // ---------------------------------------------------------------------------
  // json.loads(json.dumps(x)) == x for the strings and objects written above
  // ---------------------------------------------------------------------------

  lemma HexLowerValue(d: int)
    requires 0 <= d < 16
    ensures IsHexDigit(HexLower(d)) && HexDigitValue(HexLower(d)) == d
  {
  }

  lemma HexDigitsOf(n: int)
    requires 0 <= n < 0x10000
    ensures n == (n / 4096) * 4096 + (n / 256 % 16) * 256 + (n / 16 % 16) * 16 + n % 16
    ensures n / 4096 < 16
  {
    var a, b := n / 16, n / 256;
    assert n == a * 16 + n % 16;
    assert b == a / 16;
    assert a == b * 16 + a % 16;
    assert n / 4096 == b / 16;
    assert b == (n / 4096) * 16 + b % 16;
  }

  lemma U4Value(n: int, more: string)
    requires 0 <= n < 0x10000
    ensures var s := U4(n) + more; s[0] == '\\' && s[1] == 'u' && Hex4(s[2..]) && Hex4Value(s[2..]) == n
  {
    HexLowerValue(n / 4096);
    HexLowerValue(n / 256 % 16);
    HexLowerValue(n / 16 % 16);
    HexLowerValue(n % 16);
    HexDigitsOf(n);
    var s := U4(n) + more;
    var h := s[2..];
    assert h[0] == HexLower(n / 4096) && h[1] == HexLower(n / 256 % 16);
    assert h[2] == HexLower(n / 16 % 16) && h[3] == HexLower(n % 16);
    assert Hex4Value(h) == (n / 4096) * 4096 + (n / 256 % 16) * 256 + (n / 16 % 16) * 16 + n % 16;
  }

  lemma ScanBmpEscape(c: char, more: string)
    requires (c as int) < 0x10000
    ensures ScanEscape(U4(c as int) + more) == Scanned(c, more)
  {
    var s := U4(c as int) + more;
    U4Value(c as int, more);
    assert s[6..] == more;
  }

  lemma ScanPairEscape(c: char, more: string)
    requires (c as int) >= 0x10000
    ensures ScanEscape(SurrogatePair(c) + more) == Scanned(c, more)
  {
    var v := c as int - 0x10000;
    var hi, lo := 0xD800 + v / 1024, 0xDC00 + v % 1024;
    var s := SurrogatePair(c) + more;
    assert SurrogatePair(c) == U4(hi) + U4(lo);
    U4Value(hi, U4(lo) + more);
    assert s == U4(hi) + (U4(lo) + more);
    U4Value(lo, more);
    assert s[6..] == U4(lo) + more;
    assert s[8..] == (U4(lo) + more)[2..];
    assert s[12..] == more;
    assert 0x10000 + (hi - 0xD800) * 1024 + (lo - 0xDC00) == c as int;
  }

  /** The seven characters `ensure_ascii` writes as a backslash and one letter. */
  lemma ScanShortEscape(c: char, more: string)
    requires c == '"' || c == '\\' || c == '\n' || c == '\r' || c == '\t' || c == '\U{8}' || c == '\U{C}'
    ensures ScanString(EscapeChar(c) + more) == Cons(c, ScanString(more))
  {
    var s := EscapeChar(c) + more;
    assert |EscapeChar(c)| == 2 && s[0] == '\\';
    assert s[2..] == more;
    assert ScanEscape(s) == Scanned(c, more);
  }

  lemma ScanEscapedChar(c: char, more: string)
    ensures ScanString(EscapeChar(c) + more) == Cons(c, ScanString(more))
  {
    var e := EscapeChar(c);
    var s := e + more;
    if c == '"' || c == '\\' || c == '\n' || c == '\r' || c == '\t' || c == '\U{8}' || c == '\U{C}' {
      ScanShortEscape(c, more);
    } else if ' ' <= c <= '~' {
      assert s[1..] == more;
    } else if (c as int) < 0x10000 {
      ScanBmpEscape(c, more);
    } else {
      ScanPairEscape(c, more);
      assert s[12..] == more;
    }
  }

  lemma {:induction false} ScanEscapedString(a: string, rest: string)
    ensures ScanString(EscapeAll(a) + "\"" + rest) == Scanned(a, rest)
    decreases |a|
  {
    if a == [] {
      assert EscapeAll(a) + "\"" + rest == "\"" + rest;
      assert ("\"" + rest)[1..] == rest;
    } else {
      var tail := EscapeAll(a[1..]) + "\"" + rest;
      assert EscapeAll(a) + "\"" + rest == EscapeChar(a[0]) + tail;
      ScanEscapedChar(a[0], tail);
      ScanEscapedString(a[1..], rest);
      assert [a[0]] + a[1..] == a;
    }
  }

  /** A dumped string reads back as the same string. */
  lemma ScanQuoted(a: string, rest: string)
    ensures ScanValue(Quote(a) + rest) == Scanned(Str(a), rest)
  {
    var s := Quote(a) + rest;
    assert s[1..] == EscapeAll(a) + "\"" + rest;
    ScanEscapedString(a, rest);
  }

  function StrValues(d: Dict<string>): (r: Dict<Value>)
    ensures |r| == |d| && forall i :: 0 <= i < |d| ==> r[i] == (d[i].0, Str(d[i].1))
  {
    seq(|d|, i requires 0 <= i < |d| => (d[i].0, Str(d[i].1)))
  }

  /** Text that does not start with whitespace is left as it is. */
  lemma NoLeadingWs(s: string)
    requires s != [] && !IsWs(s[0])
    ensures SkipWs(s) == s
  {
  }

  lemma SkipOneSpace(x: string)
    requires x != [] && !IsWs(x[0])
    ensures SkipWs(" " + x) == x
  {
    assert (" " + x)[1..] == x;
  }

  /** One step of `ScanMembers`, stated over the pieces it reads. */
  lemma MembersStep(t: string, seen: seq<(string, Value)>, key: string, afterKey: string, v: Value, afterValue: string)
    requires t != [] && t[0] == '"' && ScanString(t[1..]) == Scanned(key, afterKey)
    requires SkipWs(afterKey) != [] && SkipWs(afterKey)[0] == ':'
    requires ScanValue(SkipWs(SkipWs(afterKey)[1..])) == Scanned(v, afterValue)
    ensures ScanMembers(t, seen) == MembersAfter(afterValue, seen + [(key, v)])
  {
  }

  lemma QuoteHead(k: string, more: string)
    ensures (Quote(k) + more) != [] && (Quote(k) + more)[0] == '"'
    ensures (Quote(k) + more)[1..] == EscapeAll(k) + "\"" + more
  {
    assert Quote(k) + more == "\"" + (EscapeAll(k) + "\"" + more);
  }

  lemma ColonSpace(valueText: string)
    requires valueText != [] && valueText[0] == '"'
    ensures SkipWs(": " + valueText) == ": " + valueText
    ensures SkipWs((": " + valueText)[1..]) == valueText
  {
    assert (": " + valueText)[1..] == " " + valueText;
    SkipOneSpace(valueText);
  }

  lemma MemberText(k: string, v: string, tail: string)
    ensures Member(k, v) + tail == Quote(k) + (": " + (Quote(v) + tail))
  {
  }

  /** A dumped member, `"k": "v"`, reads back as the pair `(k, v)`. */
  lemma ScanOneMember(k: string, v: string, tail: string, seen: seq<(string, Value)>)
    ensures ScanMembers(Member(k, v) + tail, seen) == MembersAfter(tail, seen + [(k, Str(v))])
  {
    var valueText := Quote(v) + tail;
    var colon := ": " + valueText;
    MemberText(k, v, tail);
    QuoteHead(k, colon);
    ScanEscapedString(k, colon);
    QuoteHead(v, tail);
    ColonSpace(valueText);
    ScanQuoted(v, tail);
    MembersStep(Quote(k) + colon, seen, k, colon, Str(v), tail);
  }

  lemma MembersAfterClose(rest: string, members: seq<(string, Value)>)
    ensures MembersAfter("}" + rest, members) == Scanned(Obj(FromPairs(members)), rest)
  {
    assert SkipWs("}" + rest) == "}" + rest;
    assert ("}" + rest)[1..] == rest;
  }

  lemma MembersAfterComma(next: string, members: seq<(string, Value)>)
    requires next != [] && next[0] == '"'
    ensures MembersAfter(", " + next, members) == ScanMembers(next, members)
  {
    var u := ", " + next;
    assert SkipWs(u) == u;
    assert u[1..] == " " + next;
    SkipOneSpace(next);
  }

  lemma Regroup(a: string, b: string, c: string, e: string)
    ensures (a + (b + c)) + e == a + (b + (c + e))
  {
  }

  lemma MembersCons(d: Dict<string>, more: string)
    requires |d| > 1
    ensures Members(d) + more == Member(d[0].0, d[0].1) + (", " + (Members(d[1..]) + more))
  {
    Regroup(Member(d[0].0, d[0].1), ", ", Members(d[1..]), more);
  }

  lemma MembersHead(d: Dict<string>, more: string)
    requires d != []
    ensures Members(d) + more != [] && (Members(d) + more)[0] == '"'
  {
    var k, v := d[0].0, d[0].1;
    if |d| > 1 {
      MembersCons(d, more);
    }
    assert Member(k, v)[0] == Quote(k)[0] == '"';
  }

  lemma StrValuesCons(d: Dict<string>, seen: seq<(string, Value)>)
    requires d != []
    ensures seen + StrValues(d) == (seen + [(d[0].0, Str(d[0].1))]) + StrValues(d[1..])
  {
    assert StrValues(d) == [(d[0].0, Str(d[0].1))] + StrValues(d[1..]);
  }

  lemma ScanLastMember(k: string, v: string, seen: seq<(string, Value)>, rest: string)
    ensures ScanMembers(Member(k, v) + ("}" + rest), seen) == Scanned(Obj(FromPairs(seen + [(k, Str(v))])), rest)
  {
    ScanOneMember(k, v, "}" + rest, seen);
    MembersAfterClose(rest, seen + [(k, Str(v))]);
  }

  lemma ScanInnerMember(k: string, v: string, seen: seq<(string, Value)>, next: string)
    requires next != [] && next[0] == '"'
    ensures ScanMembers(Member(k, v) + (", " + next), seen) == ScanMembers(next, seen + [(k, Str(v))])
  {
    ScanOneMember(k, v, ", " + next, seen);
    MembersAfterComma(next, seen + [(k, Str(v))]);
  }

  lemma {:induction false} ScanDumpedMembers(d: Dict<string>, seen: seq<(string, Value)>, rest: string)
    requires d != []
    ensures ScanMembers(Members(d) + ("}" + rest), seen) == Scanned(Obj(FromPairs(seen + StrValues(d))), rest)
    decreases |d|
  {
    var k, v := d[0].0, d[0].1;
    StrValuesCons(d, seen);
    if |d| == 1 {
      ScanLastMember(k, v, seen, rest);
    } else {
      MembersCons(d, "}" + rest);
      MembersHead(d[1..], "}" + rest);
      ScanInnerMember(k, v, seen, Members(d[1..]) + ("}" + rest));
      ScanDumpedMembers(d[1..], seen + [(k, Str(v))], rest);
    }
  }

  /** An object body that starts with a key is read member by member from an empty start. */
  lemma ScanObjectAtKey(t: string)
    requires t != [] && t[0] == '"' && SkipWs(t) == t
    ensures ScanObject(t) == ScanMembers(t, [])
  {
  }

  /** `{}` after its `{` reads back as the empty object. */
  lemma ScanEmptyObject(d: Dict<string>)
    requires d == []
    ensures ScanObject(Members(d) + ("}" + "")) == Scanned(Obj(FromPairs(StrValues(d))), "")
  {
    var t := "}";
    assert Members(d) + ("}" + "") == t;
    assert !IsWs(t[0]) && SkipWs(t) == t;
    assert ScanObject(t) == Scanned(Obj([]), "");
    assert StrValues(d) == [];
  }

  /** The object `json.dumps` writes for `d`, after its `{`, reads back as `d`. */
  lemma ScanDumpedObject(d: Dict<string>)
    ensures ScanObject(Members(d) + ("}" + "")) == Scanned(Obj(FromPairs(StrValues(d))), "")
  {
    var body := Members(d) + ("}" + "");
    if d == [] {
      ScanEmptyObject(d);
    } else {
      MembersHead(d, "}" + "");
      NoLeadingWs(body);
      ScanObjectAtKey(body);
      ScanDumpedMembers(d, [], "");
      assert [] + StrValues(d) == StrValues(d);
    }
  }

  lemma DumpsStringsBody(d: Dict<string>)
    ensures DumpsStrings(d) == "{" + (Members(d) + ("}" + ""))
  {
    assert "}" + "" == "}";
    assert ("{" + Members(d)) + "}" == "{" + (Members(d) + "}");
  }

  lemma ObjectText(body: string)
    ensures var text := "{" + body; text != [] && text[0] == '{' && text[1..] == body && SkipWs(text) == text
  {
    var text := "{" + body;
    assert text[1..] == body;
  }

  lemma LoadsObject(body: string, v: Value)
    requires ScanObject(body) == Scanned(v, "")
    ensures Loads("{" + body) == Loaded(v)
  {
    ObjectText(body);
  }

  /** `json.loads(json.dumps(d))` is `d` again, with later duplicate keys winning. */
  lemma LoadsDumpsStrings(d: Dict<string>)
    ensures Loads(DumpsStrings(d)) == Loaded(Obj(FromPairs(StrValues(d))))
  {
    DumpsStringsBody(d);
    ScanDumpedObject(d);
    LoadsObject(Members(d) + ("}" + ""), Obj(FromPairs(StrValues(d))));
  }

  /** The dictionary-of-strings writer above is `json.dumps` on the corresponding object. */
  lemma {:induction false} MembersAreDumped(d: Dict<string>)
    ensures Members(d) == Join(", ", seq(|d|, i requires 0 <= i < |d| => Quote(d[i].0) + ": " + Dumps(Str(d[i].1))))
    decreases |d|
  {
    var parts := seq(|d|, i requires 0 <= i < |d| => Quote(d[i].0) + ": " + Dumps(Str(d[i].1)));
    if |d| > 1 {
      MembersAreDumped(d[1..]);
      assert parts[1..] == seq(|d[1..]|, i requires 0 <= i < |d[1..]| => Quote(d[1..][i].0) + ": " + Dumps(Str(d[1..][i].1)));
    }
  }

  lemma DumpsStringsIsDumps(d: Dict<string>)
    ensures Dumps(Obj(StrValues(d))) == DumpsStrings(d)
  {
    MembersAreDumped(d);
    var f := StrValues(d);
    assert seq(|f|, i requires 0 <= i < |f| => Quote(f[i].0) + ": " + Dumps(f[i].1))
        == seq(|d|, i requires 0 <= i < |d| => Quote(d[i].0) + ": " + Dumps(Str(d[i].1)));
  }

  /**
   * `str(v)` for a value read from JSON. `None`, booleans, integers and strings print as
   * Python prints them, and so do the non-finite floats and a float that rounds to zero or
   * to infinity; any other float keeps its literal text. A list or a dictionary is rendered as
   * JSON text, an approximation of Python's repr.
   */
  function PyStr(v: Value): string {
    match v
    case Null => "None"
    case Bool(b) => if b then "True" else "False"
    case Int(i) => IntToString(i)
    case Float(t) => FloatText(t, "nan", "inf")
    case Str(s) => s
    case Arr(_) => Dumps(v)
    case Obj(_) => Dumps(v)
  }

  /** `1E400` overflows when it is loaded, so `json.dumps` writes `Infinity` and `str` gives `inf`. */
  lemma OverflowWrittenAsInfinity()
    ensures Dumps(Float("1E400")) == "Infinity"
    ensures PyStr(Float("1E400")) == "inf"
  {
    OverflowRoundsToInfinity();
    var t := "1E400";
    assert FloatText(t, "NaN", "Infinity") == "Infinity";
    assert FloatText(t, "nan", "inf") == "inf";
  }
}
