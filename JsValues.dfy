/** The JavaScript values that flow through CSV ingestion, and the built-in string and number
    conversions the code applies to them (`trim`, `toLowerCase`, `split`, `Number`, `parseFloat`,
    `String`). Numbers are exact reals: floating-point rounding is not modelled. */
module JsValues {
  import opened Wrappers

  /** A loosely typed field value. `NaN` never needs to be stored: every conversion that could
      produce it returns `None` instead. Objects and arrays are not modelled. */
  datatype JsValue = Undefined | Null | Bool(b: bool) | Num(n: real) | Str(s: string)

  /** A row object as the upload receives it: column name to value. */
  type Row = map<string, JsValue>

  /** Property access: a key the object lacks reads as `undefined`. */
  function Get(row: Row, key: string): JsValue
  {
    if key in row then row[key] else Undefined
  }

  /** JavaScript truthiness. */
  predicate Truthy(v: JsValue)
  {
    match v
    case Undefined => false
    case Null => false
    case Bool(b) => b
    case Num(n) => n != 0.0
    case Str(s) => s != ""
  }

  /** `a || b`. */
  function Or(a: JsValue, b: JsValue): JsValue
  {
    if Truthy(a) then a else b
  }

  // ---------------------------------------------------------------- characters and strings

  /** The code points `String.prototype.trim` removes: WhiteSpace and LineTerminator. */
  predicate IsWhitespace(c: char)
  {
    var k := c as int;
    k == 0x09 || k == 0x0A || k == 0x0B || k == 0x0C || k == 0x0D || k == 0x20 || k == 0xA0 ||
    k == 0x1680 || (0x2000 <= k <= 0x200A) || k == 0x2028 || k == 0x2029 || k == 0x202F ||
    k == 0x205F || k == 0x3000 || k == 0xFEFF
  }

  function TrimStart(s: string): (r: string)
    ensures |r| <= |s| && r == s[|s| - |r|..]
    ensures r == [] || !IsWhitespace(r[0])
  {
    if |s| > 0 && IsWhitespace(s[0]) then TrimStart(s[1..]) else s
  }

  function TrimEnd(s: string): (r: string)
    ensures |r| <= |s| && r == s[..|r|]
    ensures r == [] || !IsWhitespace(r[|r| - 1])
  {
    if |s| > 0 && IsWhitespace(s[|s| - 1]) then TrimEnd(s[..|s| - 1]) else s
  }

  /** `s.trim()`. */
  function Trim(s: string): string
  {
    TrimEnd(TrimStart(s))
  }

  lemma {:induction false} TrimStartSnoc(s: string, c: char)
    requires IsWhitespace(c)
    ensures TrimStart(s + [c]) == if TrimStart(s) == [] then [] else TrimStart(s) + [c]
    decreases |s|
  {
    var t := s + [c];
    if s == [] {
      assert t == [c] && t[1..] == [];
      assert TrimStart(t) == TrimStart(t[1..]);
    } else if IsWhitespace(s[0]) {
      assert t[0] == s[0] && t[1..] == s[1..] + [c];
      assert TrimStart(t) == TrimStart(s[1..] + [c]);
      assert TrimStart(s) == TrimStart(s[1..]);
      TrimStartSnoc(s[1..], c);
    } else {
      assert t[0] == s[0];
      assert TrimStart(t) == t;
      assert TrimStart(s) == s;
    }
  }

  /** `trim` ignores one more white-space character at either end. */
  lemma TrimPadding(s: string, c: char)
    requires IsWhitespace(c)
    ensures Trim([c] + s) == Trim(s) && Trim(s + [c]) == Trim(s)
  {
    assert ([c] + s)[1..] == s;
    TrimStartSnoc(s, c);
    var t := TrimStart(s);
    if t != [] {
      assert (t + [c])[..|t|] == t;
    }
  }

  /** `toLowerCase` on one character; only the ASCII letters are mapped. */
  function ToLower(c: char): char
  {
    if 'A' <= c <= 'Z' then (c as int + 32) as char else c
  }

  /** `s.toLowerCase()`. */
  function LowerCase(s: string): (r: string)
    ensures |r| == |s|
  {
    seq(|s|, i requires 0 <= i < |s| => ToLower(s[i]))
  }

  lemma LowerCaseIdempotent(s: string)
    ensures LowerCase(LowerCase(s)) == LowerCase(s)
  {
  }

  /** Lower-casing a white-space character leaves it as it is, so it commutes with padding. */
  lemma LowerCasePadding(s: string, c: char)
    requires IsWhitespace(c)
    ensures LowerCase([c] + s) == [c] + LowerCase(s) && LowerCase(s + [c]) == LowerCase(s) + [c]
  {
    assert ToLower(c) == c;
    assert LowerCase([c] + s) == [ToLower(c)] + LowerCase(s);
    assert LowerCase(s + [c]) == LowerCase(s) + [ToLower(c)];
  }

  /** `s.endsWith(suffix)`. */
  predicate EndsWith(s: string, suffix: string)
  {
    |suffix| <= |s| && s[|s| - |suffix|..] == suffix
  }

  /** `needle` occurs in `s` at position `i`. */
  predicate OccursAt(needle: string, s: string, i: nat)
  {
    i + |needle| <= |s| && s[i..i + |needle|] == needle
  }

  /** `s.includes(needle)`. */
  function Includes(s: string, needle: string): (r: bool)
    ensures r <==> exists i :: 0 <= i <= |s| - |needle| && OccursAt(needle, s, i)
    decreases |s|
  {
    if |needle| > |s| then false
    else if s[..|needle|] == needle then
      assert OccursAt(needle, s, 0);
      true
    else
      var r := Includes(s[1..], needle);
      if r then
        var i :| 0 <= i <= |s[1..]| - |needle| && OccursAt(needle, s[1..], i);
        assert s[1..][i..i + |needle|] == s[i + 1..i + 1 + |needle|];
        assert OccursAt(needle, s, i + 1);
        true
      else
        forall i | 0 <= i <= |s| - |needle| ensures !OccursAt(needle, s, i) {
          if i == 0 {
            assert s[0..|needle|] == s[..|needle|];
          } else {
            assert !OccursAt(needle, s[1..], i - 1);
            assert s[1..][i - 1..i - 1 + |needle|] == s[i..i + |needle|];
          }
        }
        false
  }

  /** Position of the first `c` in `s`. */
  function IndexOf(s: string, c: char): (i: nat)
    requires c in s
    ensures i < |s| && s[i] == c && c !in s[..i]
  {
    if s[0] == c then 0 else 1 + IndexOf(s[1..], c)
  }

  /** `s.split(sep)` for a one-character separator. */
  function Split(s: string, sep: char): (parts: seq<string>)
    ensures |parts| > 0
    ensures forall i :: 0 <= i < |parts| ==> sep !in parts[i]
    decreases |s|
  {
    if sep !in s then [s]
    else
      var i := IndexOf(s, sep);
      [s[..i]] + Split(s[i + 1..], sep)
  }

  /** `parts.join(sep)`. */
  function Join(parts: seq<string>, sep: char): string
  {
    if parts == [] then ""
    else if |parts| == 1 then parts[0]
    else parts[0] + [sep] + Join(parts[1..], sep)
  }

  /** Splitting loses nothing: joining the pieces with the separator gives the string back. */
  lemma {:induction false} JoinSplit(s: string, sep: char)
    ensures Join(Split(s, sep), sep) == s
    decreases |s|
  {
    if sep in s {
      var i := IndexOf(s, sep);
      JoinSplit(s[i + 1..], sep);
      assert s == s[..i] + [sep] + s[i + 1..];
    }
  }

  // ---------------------------------------------------------------- decimal digits

  predicate IsDigit(c: char)
  {
    '0' <= c <= '9'
  }

  predicate AllDigits(s: string)
  {
    forall i :: 0 <= i < |s| ==> IsDigit(s[i])
  }

  function DigitChar(d: nat): (c: char)
    requires d < 10
    ensures IsDigit(c)
  {
    ('0' as int + d) as char
  }

  function DigitValue(c: char): (d: nat)
    requires IsDigit(c)
    ensures d < 10
  {
    c as int - '0' as int
  }

  /** The decimal numeral of `n`, as `String(n)` prints a non-negative integer. */
  function NatToString(n: nat): (s: string)
    ensures |s| > 0 && AllDigits(s)
  {
    if n < 10 then [DigitChar(n)] else NatToString(n / 10) + [DigitChar(n % 10)]
  }

  /** The value of a string of decimal digits. */
  function DigitsValue(s: string): nat
    requires AllDigits(s)
  {
    if s == [] then 0 else DigitsValue(s[..|s| - 1]) * 10 + DigitValue(s[|s| - 1])
  }

  lemma {:induction false} DigitsValueOfNatToString(n: nat)
    ensures DigitsValue(NatToString(n)) == n
  {
    if n >= 10 {
      DigitsValueOfNatToString(n / 10);
      var s := NatToString(n);
      assert s[..|s| - 1] == NatToString(n / 10);
    }
  }

  /** Distinct numbers print as distinct numerals. */
  lemma NatToStringInjective(m: nat, n: nat)
    requires NatToString(m) == NatToString(n)
    ensures m == n
  {
    DigitsValueOfNatToString(m);
    DigitsValueOfNatToString(n);
  }

  /** Length of the run of digits at the start of `s`. */
  function DigitRun(s: string): (n: nat)
    ensures n <= |s| && AllDigits(s[..n])
    ensures n < |s| ==> !IsDigit(s[n])
  {
    if |s| > 0 && IsDigit(s[0]) then
      assert s[..1 + DigitRun(s[1..])] == [s[0]] + s[1..][..DigitRun(s[1..])];
      1 + DigitRun(s[1..])
    else 0
  }

  lemma {:induction false} DigitRunOfDigits(s: string)
    requires AllDigits(s)
    ensures DigitRun(s) == |s|
  {
    if s != [] {
      DigitRunOfDigits(s[1..]);
    }
  }

  function Pow10(n: nat): (r: nat)
    ensures r > 0
  {
    if n == 0 then 1 else 10 * Pow10(n - 1)
  }

  /** A decimal literal found at the start of a string: its value and how many characters it spans. */
  datatype Scan = Scan(value: real, length: nat)

  /** The value of the fraction digits `d`, read after a decimal point. */
  function FractionValue(d: string): real
    requires AllDigits(d)
  {
    DigitsValue(d) as real / Pow10(|d|) as real
  }

  /** The longest prefix of `s` that is an unsigned decimal literal: digits, optionally followed
      by `.` and fraction digits, with at least one digit in all. */
  function ScanUnsigned(s: string): (r: Option<Scan>)
    ensures r.Some? ==> 0 < r.value.length <= |s|
  {
    var n1 := DigitRun(s);
    if n1 < |s| && s[n1] == '.' then
      var n2 := DigitRun(s[n1 + 1..]);
      if n1 + n2 == 0 then None
      else Some(Scan(DigitsValue(s[..n1]) as real + FractionValue(s[n1 + 1..][..n2]), n1 + 1 + n2))
    else if n1 == 0 then None
    else Some(Scan(DigitsValue(s[..n1]) as real, n1))
  }

  /** The longest prefix of `s` that is a decimal literal: an optional sign and an unsigned
      literal; `None` when there is none. */
  function ScanDecimal(s: string): (r: Option<Scan>)
    ensures r.Some? ==> 0 < r.value.length <= |s|
  {
    if |s| > 0 && (s[0] == '+' || s[0] == '-') then
      match ScanUnsigned(s[1..])
      case Some(sc) => Some(Scan(if s[0] == '-' then -sc.value else sc.value, sc.length + 1))
      case None => None
    else ScanUnsigned(s)
  }

  /** `Number(s)` for a string: blank is 0, otherwise the whole trimmed string must be a decimal
      literal; `None` stands for `NaN`. */
  function StringToNumber(s: string): Option<real>
  {
    var t := Trim(s);
    if t == "" then Some(0.0)
    else
      match ScanDecimal(t)
      case Some(sc) => if sc.length == |t| then Some(sc.value) else None
      case None => None
  }

  /** A non-empty run of digits is a decimal literal spanning the whole string. */
  lemma ScanOfDigits(s: string)
    requires |s| > 0 && AllDigits(s)
    ensures ScanDecimal(s) == Some(Scan(DigitsValue(s) as real, |s|))
  {
    assert !(s[0] == '+' || s[0] == '-');
    DigitRunOfDigits(s);
    assert s[..|s|] == s;
  }

  lemma TrimOfDigits(s: string)
    requires |s| > 0 && AllDigits(s)
    ensures TrimStart(s) == s && Trim(s) == s
  {
    assert !IsWhitespace(s[0]);
    assert TrimStart(s) == s;
    assert !IsWhitespace(s[|s| - 1]);
  }

  /** A numeral printed from a natural number is read back as that number. */
  lemma StringToNumberOfNatToString(n: nat)
    ensures StringToNumber(NatToString(n)) == Some(n as real)
  {
    var s := NatToString(n);
    TrimOfDigits(s);
    ScanOfDigits(s);
    DigitsValueOfNatToString(n);
  }

  // ---------------------------------------------------------------- String(value) and parseFloat

  /** Fraction digits of `f` in [0, 1), at most `fuel` of them. */
  function FractionDigits(f: real, fuel: nat): string
    requires 0.0 <= f < 1.0
    decreases fuel
  {
    if f == 0.0 || fuel == 0 then ""
    else
      var d := (f * 10.0).Floor;
      assert 0 <= d < 10;
      [DigitChar(d)] + FractionDigits(f * 10.0 - d as real, fuel - 1)
  }

  /** `String(n)` for a number in plain (non-exponent) notation. */
  function NumberToString(n: real): string
  {
    var m := if n < 0.0 then -n else n;
    var whole := m.Floor;
    var frac := m - whole as real;
    (if n < 0.0 then "-" else "") + NatToString(whole) + (if frac == 0.0 then "" else "." + FractionDigits(frac, 20))
  }

  /** `String(n)` of a whole number is its decimal numeral. */
  lemma NumberToStringOfNat(n: nat)
    ensures NumberToString(n as real) == NatToString(n)
  {
    assert (n as real).Floor == n;
  }

  /** `String(value)`. */
  function ToJsString(v: JsValue): string
  {
    match v
    case Undefined => "undefined"
    case Null => "null"
    case Bool(b) => if b then "true" else "false"
    case Num(n) => NumberToString(n)
    case Str(s) => s
  }

  /** A string that starts with a letter has no leading white space and no decimal prefix. */
  lemma ScanOfLetter(s: string)
    requires |s| > 0 && 'a' <= s[0] <= 'z'
    ensures TrimStart(s) == s && ScanDecimal(s) == None
  {
    assert TrimStart(s) == s by {
      assert !IsWhitespace(s[0]);
    }
    assert ScanUnsigned(s) == None by {
      assert !IsDigit(s[0]);
      assert DigitRun(s) == 0 && s[0] != '.';
    }
    assert s[0] != '+' && s[0] != '-';
  }

  /** `parseFloat` of a string: leading white space skipped and the longest decimal prefix read;
      `None` stands for `NaN`. */
  function ParseFloatString(s: string): Option<real>
  {
    match ScanDecimal(TrimStart(s))
    case Some(sc) => Some(sc.value)
    case None => None
  }

  /** `parseFloat(value)`: a number is returned as it is and a string is read as above. Any other
      value is converted to "true", "false", "null" or "undefined" first, none of which starts a
      decimal literal, so it reads as `NaN`. */
  function ParseFloat(v: JsValue): (r: Option<real>)
    ensures !v.Num? ==> r == ParseFloatString(ToJsString(v))
  {
    match v
    case Num(n) => Some(n)
    case Str(s) => ParseFloatString(s)
    case Bool(b) =>
      assert ToJsString(v)[0] == if b then 't' else 'f';
      ScanOfLetter(ToJsString(v));
      None
    case Null =>
      assert ToJsString(v)[0] == 'n';
      ScanOfLetter(ToJsString(v));
      None
    case Undefined =>
      assert ToJsString(v)[0] == 'u';
      ScanOfLetter(ToJsString(v));
      None
  }
}
