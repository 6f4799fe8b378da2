/** The few pieces of Python's own behaviour that the modelled code relies on:
    truthiness of optional strings, `str.endswith`, `str(int)`, the `repr` of a
    list of strings, `os.path.join` for two POSIX parts, and a decimal numeral
    reader shared by the two numeric conversions of the application. */
module Python {

  datatype Option<+T> = None | Some(value: T)

  /** An exception-or-value outcome: `Err` carries what the exception carries. */
  datatype Result<+T, +E> = Ok(value: T) | Err(error: E)

  /** A Python float as the record layer sees it: a finite value or NaN. */
  datatype Float = Finite(x: real) | NaN

  predicate IsDigit(c: char) { '0' <= c <= '9' }
  predicate IsUpper(c: char) { 'A' <= c <= 'Z' }
  predicate IsLower(c: char) { 'a' <= c <= 'z' }

  /** Python's truthiness of an optional string: None and "" are false. */
  predicate Truthy(o: Option<string>) { o.Some? && o.value != "" }

  /** `o or default` for an optional string. */
  function Or(o: Option<string>, default: string): string
  {
    if Truthy(o) then o.value else default
  }

  /** `s.endswith(suffix)`: a case-sensitive suffix test. */
  predicate EndsWith(s: string, suffix: string)
  {
    |suffix| <= |s| && s[|s| - |suffix|..] == suffix
  }

  function DigitChar(d: nat): char
    requires d < 10
  {
    ['0', '1', '2', '3', '4', '5', '6', '7', '8', '9'][d]
  }

  function DigitValue(c: char): nat
    requires IsDigit(c)
  {
    (c as int - '0' as int) as nat
  }

  /** The decimal numeral of a natural number, most significant digit first. */
  function NatStr(n: nat): (r: string)
    ensures |r| > 0 && forall i :: 0 <= i < |r| ==> IsDigit(r[i])
    decreases n
  {
    if n < 10 then [DigitChar(n)] else NatStr(n / 10) + [DigitChar(n % 10)]
  }

  /** `str(n)` (equivalently `f"{n}"`) of a Python int. */
  function Str(n: int): string
  {
    if n < 0 then "-" + NatStr(-n) else NatStr(n)
  }

  /** `repr(s)` of a str, for strings that need no escaping. */
  function Quote(s: string): string
  {
    "'" + s + "'"
  }

  /** The items of `repr(xs)` for a list of str, separated by ", ". */
  function JoinRepr(xs: seq<string>): string
  {
    if xs == [] then ""
    else if |xs| == 1 then Quote(xs[0])
    else Quote(xs[0]) + ", " + JoinRepr(xs[1..])
  }

  /** `repr(xs)`, hence also `f"{xs}"`, of a list of str. */
  function ListRepr(xs: seq<string>): string
  {
    "[" + JoinRepr(xs) + "]"
  }

  /** `os.path.join(a, b)` on POSIX: an absolute `b` replaces `a`; otherwise
      a separator is added unless `a` is empty or already ends with one. */
  function PathJoin(a: string, b: string): (r: string)
    ensures EndsWith(r, b)
  {
    if |b| > 0 && b[0] == '/' then b
    else if a == [] || a[|a| - 1] == '/' then a + b
    else a + "/" + b
  }

  predicate AllDigits(s: string)
  {
    forall i :: 0 <= i < |s| ==> IsDigit(s[i])
  }

  /** The index of the first '.' in `s`, or |s| when there is none. */
  function DotIndex(s: string): (k: nat)
    ensures k <= |s|
    ensures forall i :: 0 <= i < k ==> s[i] != '.'
    ensures k < |s| ==> s[k] == '.'
  {
    if s == [] then 0 else if s[0] == '.' then 0 else 1 + DotIndex(s[1..])
  }

  /** The value of a string of decimal digits, read most significant first. */
  function DigitsValue(s: string): nat
    requires AllDigits(s)
  {
    if s == [] then 0 else 10 * DigitsValue(s[..|s| - 1]) + DigitValue(s[|s| - 1])
  }

  /** The value of the digits after a decimal point. */
  function FractionValue(s: string): real
    requires AllDigits(s)
  {
    if s == [] then 0.0 else (DigitValue(s[0]) as real + FractionValue(s[1..])) / 10.0
  }

  /** An unsigned decimal numeral: digits, optionally a '.' and more digits,
      with at least one digit in all ("5", "5.", ".5", "5.25"). */
  function ParseUnsigned(s: string): (r: Option<real>)
    ensures r.Some? ==> exists i :: 0 <= i < |s| && IsDigit(s[i])
    ensures s != "" && AllDigits(s) ==> r == Some(DigitsValue(s) as real)
  {
    var k := DotIndex(s);
    assert AllDigits(s) ==> k == |s| && s[..k] == s by {
      if AllDigits(s) { DotIndexAbsent(s); }
    }
    var whole := s[..k];
    var frac := if k < |s| then s[k + 1..] else "";
    if AllDigits(whole) && AllDigits(frac) && |whole| + |frac| > 0
    then Some(DigitsValue(whole) as real + FractionValue(frac))
    else None
  }

  /** A signed decimal numeral, the text form both numeric conversions of the
      application accept; None is the conversion's failure. */
  function ParseDecimal(s: string): (r: Option<real>)
    ensures r.Some? ==> exists i :: 0 <= i < |s| && IsDigit(s[i])
    ensures s != "" && AllDigits(s) ==> r == Some(DigitsValue(s) as real)
  {
    if |s| > 0 && s[0] == '-' then
      match ParseUnsigned(s[1..])
      case Some(x) => Some(-x)
      case None => None
    else if |s| > 0 && s[0] == '+' then ParseUnsigned(s[1..])
    else ParseUnsigned(s)
  }

  lemma {:induction false} NatStrValue(n: nat)
    ensures AllDigits(NatStr(n)) && DigitsValue(NatStr(n)) == n
    decreases n
  {
    var s := NatStr(n);
    if n >= 10 {
      NatStrValue(n / 10);
      assert s[..|s| - 1] == NatStr(n / 10);
      assert DigitValue(DigitChar(n % 10)) == n % 10;
    } else {
      assert DigitValue(DigitChar(n)) == n;
    }
  }

  /** The decimal text of an integer reads back as that integer. */
  lemma StrParsesBack(n: int)
    ensures ParseDecimal(Str(n)) == Some(n as real)
  {
    var m: nat := if n < 0 then -n else n;
    var d := NatStr(m);
    NatStrValue(m);
    assert DotIndex(d) == |d| by {
      assert forall i :: 0 <= i < |d| ==> d[i] != '.';
      DotIndexAbsent(d);
    }
    assert d[..|d|] == d;
    assert ParseUnsigned(d) == Some(m as real);
    if n < 0 {
      assert Str(n)[1..] == d;
    }
  }

  lemma {:induction false} DotIndexAbsent(s: string)
    requires forall i :: 0 <= i < |s| ==> s[i] != '.'
    ensures DotIndex(s) == |s|
  {
    if s != [] {
      DotIndexAbsent(s[1..]);
    }
  }
}
