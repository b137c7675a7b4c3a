/**
 * The Python values a JSON document decodes to (`dict`, `list`, `str`, `int`, `float`,
 * `bool`, `None`), with the dictionary access and truth tests the handlers use.
 */
module Json {
  import opened Wrappers
  import opened PyDict
  import opened Text
  import opened Seqs

  /** A `float` is kept as the JSON literal it came from (`NaN`, `Infinity`, `-Infinity` included). */
  datatype Value =
    | Null
    | Bool(b: bool)
    | Int(i: int)
    | Float(literal: string)
    | Str(s: string)
    | Arr(items: seq<Value>)
    | Obj(fields: Dict<Value>)

  /** `type(v).__name__`. */
  function TypeName(v: Value): string {
    match v
    case Null => "NoneType"
    case Bool(_) => "bool"
    case Int(_) => "int"
    case Float(_) => "float"
    case Str(_) => "str"
    case Arr(_) => "list"
    case Obj(_) => "dict"
  }

  /** `b` to the power `e`. */
  function Pow(b: nat, e: nat): nat {
    if e == 0 then 1 else b * Pow(b, e - 1)
  }

  /** The part of a float literal before its exponent marker. */
  function Mantissa(t: string): (m: string)
    ensures m <= t
  {
    if t == [] || t[0] == 'e' || t[0] == 'E' then [] else [t[0]] + Mantissa(t[1..])
  }

  /** The decimal digits of `s` read as one number; the sign and the point are skipped. */
  function DigitsOf(s: string): nat {
    if s == [] then 0
    else if IsDigit(s[|s| - 1]) then DigitsOf(s[..|s| - 1]) * 10 + (s[|s| - 1] as int - '0' as int)
    else DigitsOf(s[..|s| - 1])
  }

  /** The number of digits after the point of a mantissa. */
  function FractionLength(m: string): nat {
    if m == [] then 0 else if m[0] == '.' then |m| - 1 else FractionLength(m[1..])
  }

  /** The exponent written after the marker (`e-7`, `E+3`, `e12`), 0 when there is none. */
  function ExponentOf(x: string): int {
    if |x| < 2 then 0
    else if x[1] == '-' then -(DigitsOf(x[2..]) as int)
    else DigitsOf(x[1..])
  }

  /**
   * A finite float literal that `float()` rounds to zero. Its value is `digits * 10^scale`;
   * the smallest subnormal double is `2^-1074`, and round-half-even sends every value up to
   * `2^-1075` (that one included) to `0.0`.
   */
  function RoundsToZero(t: string): bool {
    var m := Mantissa(t);
    var digits := DigitsOf(m);
    var scale := ExponentOf(t[|m|..]) - FractionLength(m);
    digits == 0 || (scale < 0 && digits * Pow(2, 1075) <= Pow(10, -scale))
  }

  /**
   * A finite float literal that `float()` rounds to infinity: one at or above `2^1024 - 2^970`,
   * halfway between the largest double `2^1024 - 2^971` and `2^1024`, where round-half-even
   * goes up.
   */
  function RoundsToInfinity(t: string): bool {
    var m := Mantissa(t);
    var digits := DigitsOf(m);
    var scale := ExponentOf(t[|m|..]) - FractionLength(m);
    var bound := Pow(2, 1024) - Pow(2, 970);
    if scale >= 0 then digits * Pow(10, scale) >= bound else digits >= bound * Pow(10, -scale)
  }

  /** `bool(v)`. */
  function Truthy(v: Value): bool {
    match v
    case Null => false
    case Bool(b) => b
    case Int(i) => i != 0
    case Float(t) => t == "NaN" || t == "Infinity" || t == "-Infinity" || !RoundsToZero(t)
    case Str(s) => s != ""
    case Arr(a) => a != []
    case Obj(f) => f != []
  }

  lemma {:induction false} PowAdd(b: nat, m: nat, n: nat)
    ensures Pow(b, m + n) == Pow(b, m) * Pow(b, n)
  {
    if n > 0 {
      PowAdd(b, m, n - 1);
    }
  }

  lemma {:induction false} PowMul(b: nat, m: nat, k: nat)
    ensures Pow(b, m * k) == Pow(Pow(b, m), k)
  {
    if k > 0 {
      PowMul(b, m, k - 1);
      PowAdd(b, m * (k - 1), m);
      assert m * k == m * (k - 1) + m;
    }
  }

  lemma MulLe(x: nat, y: nat, z: nat)
    requires y <= z
    ensures x * y <= x * z
  {
  }

  lemma {:induction false} PowBase(a: nat, b: nat, k: nat)
    requires a < b
    ensures Pow(a, k) <= Pow(b, k)
    ensures k > 0 ==> Pow(a, k) < Pow(b, k)
  {
    if k > 0 {
      PowBase(a, b, k - 1);
      PowPositive(b, k - 1);
      MulLe(a, Pow(a, k - 1), Pow(b, k - 1));
      MulLe(Pow(b, k - 1), a, b - 1);
      assert Pow(b, k - 1) * b == Pow(b, k - 1) * (b - 1) + Pow(b, k - 1);
    }
  }

  lemma {:induction false} PowPositive(b: nat, k: nat)
    requires b > 0
    ensures Pow(b, k) >= 1
  {
    if k > 0 {
      PowPositive(b, k - 1);
      MulLe(b, 1, Pow(b, k - 1));
    }
  }

  /** `2^n <= 2^1200 = 8^400 <= 10^400`. */
  lemma TwoPowerBelowTenTo400(n: nat)
    requires n <= 1200
    ensures Pow(2, n) <= Pow(10, 400)
  {
    PowAdd(2, n, 1200 - n);
    PowPositive(2, 1200 - n);
    MulLe(Pow(2, n), 1, Pow(2, 1200 - n));
    PowMul(2, 3, 400);
    PowBase(8, 10, 400);
    assert Pow(2, 3) == 8;
  }

  lemma HalfSubnormalAbove400()
    ensures Pow(2, 1075) <= Pow(10, 400)
  {
    TwoPowerBelowTenTo400(1075);
  }

  /** `10^300 = 1000^100 < 1024^100 = 2^1000 <= 2^1075`. */
  lemma HalfSubnormalBelow300()
    ensures Pow(10, 300) < Pow(2, 1075)
  {
    PowMul(10, 3, 100);
    PowMul(2, 10, 100);
    PowBase(1000, 1024, 100);
    PowAdd(2, 1000, 75);
    PowPositive(2, 75);
    MulLe(Pow(2, 1000), 1, Pow(2, 75));
    assert Pow(10, 3) == 1000 && Pow(2, 10) == 1024;
  }

  /** A literal `1e-k` rounds to zero exactly when `2^1075 <= 10^k`. */
  lemma OneOverTenPower(t: string, k: nat)
    requires Mantissa(t) == "1" && ExponentOf(t[1..]) + k == 0 && k > 0
    ensures RoundsToZero(t) <==> Pow(2, 1075) <= Pow(10, k)
  {
    assert DigitsOf("1") == 1 && FractionLength("1") == 0;
    var scale := ExponentOf(t[|Mantissa(t)|..]) - FractionLength(Mantissa(t));
    assert scale == -(k as int);
    assert RoundsToZero(t) == (scale < 0 && 1 * Pow(2, 1075) <= Pow(10, -scale));
  }

  /** `1e-400` is below half the smallest subnormal: it loads as `0.0`, which is falsy. */
  lemma UnderflowIsFalsy()
    ensures RoundsToZero("1e-400") && !Truthy(Float("1e-400"))
  {
    var t := "1e-400";
    assert Mantissa(t) == "1" && t[1..] == "e-400";
    assert DigitsOf("400") == 400 by {
      assert "400"[..2] == "40" && "40"[..1] == "4" && "4"[..0] == "";
    }
    OneOverTenPower(t, 400);
    HalfSubnormalAbove400();
  }

  /** A literal `1ek` rounds to infinity exactly when `10^k` reaches the overflow bound. */
  lemma OneTimesTenPower(t: string, k: nat)
    requires Mantissa(t) == "1" && ExponentOf(t[1..]) == k
    ensures RoundsToInfinity(t) <==> Pow(10, k) >= Pow(2, 1024) - Pow(2, 970)
  {
    assert DigitsOf("1") == 1 && FractionLength("1") == 0;
    var scale := ExponentOf(t[|Mantissa(t)|..]) - FractionLength(Mantissa(t));
    assert scale == k;
    assert RoundsToInfinity(t) == (1 * Pow(10, scale) >= Pow(2, 1024) - Pow(2, 970));
  }

  /** `1E400` lies above the largest double: it loads as infinity. */
  lemma OverflowRoundsToInfinity()
    ensures RoundsToInfinity("1E400")
  {
    var t := "1E400";
    assert Mantissa(t) == "1" && t[1..] == "E400";
    assert DigitsOf("400") == 400 by {
      assert "400"[..2] == "40" && "40"[..1] == "4" && "4"[..0] == "";
    }
    OneTimesTenPower(t, 400);
    TwoPowerBelowTenTo400(1024);
  }

  /** `1e-300` is a normal double: it is truthy. */
  lemma SmallNormalIsTruthy()
    ensures !RoundsToZero("1e-300") && Truthy(Float("1e-300"))
  {
    var t := "1e-300";
    assert Mantissa(t) == "1" && t[1..] == "e-300";
    assert DigitsOf("300") == 300 by {
      assert "300"[..2] == "30" && "30"[..1] == "3" && "3"[..0] == "";
    }
    OneOverTenPower(t, 300);
    HalfSubnormalBelow300();
  }

  /** A literal whose digits are all zero rounds to zero. */
  lemma ZeroDigitsRoundToZero(t: string)
    requires DigitsOf(Mantissa(t)) == 0
    ensures RoundsToZero(t)
  {
  }

  /** A zero mantissa is falsy whatever its sign and exponent. */
  lemma ZeroMantissaIsFalsy()
    ensures RoundsToZero("-0e5") && !Truthy(Float("-0e5"))
  {
    var t := "-0e5";
    assert Mantissa(t) == "-0" by {
      assert t[1..] == "0e5" && "0e5"[1..] == "e5";
    }
    assert DigitsOf("-0") == 0 by {
      assert "-0"[..1] == "-" && "-"[..0] == "";
    }
    ZeroDigitsRoundToZero(t);
  }

  /** The message of the AttributeError Python raises when `.get` is called on a non-dictionary. */
  function NoGet(v: Value): string {
    "'" + TypeName(v) + "' object has no attribute 'get'"
  }

  /** The message of the TypeError Python raises when a value that is not a sequence is sliced. */
  function NotSubscriptable(v: Value): string {
    "'" + TypeName(v) + "' object is not subscriptable"
  }

  /** `v.get(k)`: raises unless `v` is a dictionary. */
  function Member(v: Value, k: string): (r: Result<Option<Value>>)
    ensures r.Ok? <==> v.Obj?
    ensures v.Obj? ==> r.value == Get(v.fields, k)
    ensures !v.Obj? ==> r == Raised(NoGet(v))
  {
    if v.Obj? then Ok(Get(v.fields, k)) else Raised(NoGet(v))
  }

  /** `v.get(k, default)`. */
  function MemberOr(v: Value, k: string, default: Value): Result<Value> {
    if v.Obj? then Ok(GetOr(v.fields, k, default)) else Raised(NoGet(v))
  }

  /** `k in v` for a string `k`: a key test on a dictionary, an element test on a list, a substring test on a string. */
  function In(k: string, v: Value): (r: Result<bool>)
    ensures r.Raised? <==> !(v.Obj? || v.Arr? || v.Str?)
    ensures v.Obj? ==> r == Ok(HasKey(v.fields, k))
    ensures r.Raised? ==> r.message == "argument of type '" + TypeName(v) + "' is not iterable"
  {
    match v
    case Obj(f) => Ok(HasKey(f, k))
    case Arr(items) => Ok(Str(k) in items)
    case Str(s) => Ok(Contains(s, k))
    case _ => Raised("argument of type '" + TypeName(v) + "' is not iterable")
  }

  /** The strings held anywhere inside `v`, depth first, in dictionary and list order. */
  function Leaves(v: Value): seq<string>
    decreases v
  {
    match v
    case Str(s) => [s]
    case Arr(items) => Concat(seq(|items|, i requires 0 <= i < |items| => Leaves(items[i])))
    case Obj(fields) => Concat(seq(|fields|, i requires 0 <= i < |fields| => Leaves(fields[i].1)))
    case _ => []
  }

  /** The leaves of the values of `fields`, one value after another. */
  function FieldLeaves(fields: Dict<Value>): seq<string> {
    if fields == [] then [] else Leaves(fields[0].1) + FieldLeaves(fields[1..])
  }

  /** The leaves of a dictionary are those of its values, in order. */
  lemma {:induction false} LeavesObj(fields: Dict<Value>)
    ensures Leaves(Obj(fields)) == FieldLeaves(fields)
  {
    if fields != [] {
      LeavesObj(fields[1..]);
      assert seq(|fields|, i requires 0 <= i < |fields| => Leaves(fields[i].1))[1..] ==
             seq(|fields[1..]|, i requires 0 <= i < |fields[1..]| => Leaves(fields[1..][i].1));
    }
  }

  lemma LeavesObj2(k1: string, v1: Value, k2: string, v2: Value)
    ensures Leaves(Obj([(k1, v1), (k2, v2)])) == Leaves(v1) + Leaves(v2)
  {
    LeavesObj([(k1, v1), (k2, v2)]);
    assert [(k1, v1), (k2, v2)][1..] == [(k2, v2)];
    assert FieldLeaves([(k2, v2)]) == Leaves(v2) by {
      assert [(k2, v2)][1..] == [];
    }
  }

  lemma LeavesObj3(k1: string, v1: Value, k2: string, v2: Value, k3: string, v3: Value)
    ensures Leaves(Obj([(k1, v1), (k2, v2), (k3, v3)])) == Leaves(v1) + Leaves(v2) + Leaves(v3)
  {
    LeavesObj([(k1, v1), (k2, v2), (k3, v3)]);
    LeavesObj([(k2, v2), (k3, v3)]);
    LeavesObj2(k2, v2, k3, v3);
    assert [(k1, v1), (k2, v2), (k3, v3)][1..] == [(k2, v2), (k3, v3)];
  }

  /** `str(KeyError(k))`: the repr of the missing key. */
  function KeyErrorMessage(k: string): string {
    "'" + k + "'"
  }

  /** `v[k]` on a dictionary of strings. */
  function Index(d: Dict<string>, k: string): (r: Result<string>)
    ensures r.Ok? <==> HasKey(d, k)
    ensures r.Ok? ==> Get(d, k) == Some(r.value)
    ensures r.Raised? ==> r.message == KeyErrorMessage(k)
  {
    match Get(d, k)
    case Some(x) => Ok(x)
    case None => Raised(KeyErrorMessage(k))
  }
}
