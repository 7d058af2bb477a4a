/** The two JavaScript number conversions the system relies on, restricted to
    integers: `Number.prototype.toString()` (decimal, used by the client to
    build cache keys and query strings and by the server to build cache keys,
    SQL and story fields) and the global `parseInt` (used by the server to
    read the `limit` and `offset` query parameters). */
module JsNumber {
  import opened Wrappers

  /** The result of `parseInt`: NaN or an integer. */
  datatype Parsed = NaN | Num(value: int)

  /** JavaScript truthiness of a parsed number: NaN and 0 are falsy. */
  predicate Truthy(p: Parsed) {
    p.Num? && p.value != 0
  }

  /** `p || d` for a parsed number `p` and a default `d`. */
  function OrElse(p: Parsed, d: int): (r: int)
    ensures Truthy(p) ==> r == p.value
    ensures !Truthy(p) ==> r == d
  {
    if Truthy(p) then p.value else d
  }

  // ---------------------------------------------------------------------
  // Number.prototype.toString() on integers

  function DigitChar(d: nat): (c: char)
    requires d < 10
    ensures IsDecimalDigit(c) && DigitValue(c) == d
  {
    "0123456789"[d]
  }

  predicate IsDecimalDigit(c: char) {
    '0' <= c <= '9'
  }

  /** Decimal digits of a natural number, most significant first, no leading zero. */
  function NatToString(n: nat): (s: string)
    decreases n
  {
    if n < 10 then [DigitChar(n)] else NatToString(n / 10) + [DigitChar(n % 10)]
  }

  /** `n.toString()` for an integer `n`. */
  function IntToString(n: int): (s: string) {
    if n < 0 then "-" + NatToString(-n) else NatToString(n)
  }

  /** Characters that can appear in the decimal form of an integer. */
  predicate NumeralChars(s: string) {
    forall i :: 0 <= i < |s| ==> IsDecimalDigit(s[i]) || s[i] == '-'
  }

  lemma {:induction false} NatToStringDigits(n: nat)
    ensures |NatToString(n)| > 0
    ensures forall i :: 0 <= i < |NatToString(n)| ==> IsDecimalDigit(NatToString(n)[i])
    ensures n >= 10 ==> NatToString(n)[0] != '0'
    decreases n
  {
    if n >= 10 {
      NatToStringDigits(n / 10);
      var s := NatToString(n / 10);
      assert NatToString(n) == s + [DigitChar(n % 10)];
      if n / 10 >= 10 {
        assert NatToString(n)[0] == s[0];
      } else {
        assert s == [DigitChar(n / 10)];
        assert NatToString(n)[0] == DigitChar(n / 10);
      }
    }
  }

  /** The decimal form is non-empty and uses only digits and the minus sign. */
  lemma IntToStringChars(n: int)
    ensures |IntToString(n)| > 0
    ensures NumeralChars(IntToString(n))
  {
    if n < 0 {
      NatToStringDigits(-n);
      var s := NatToString(-n);
      assert forall i :: 1 <= i < |IntToString(n)| ==> IntToString(n)[i] == s[i - 1];
    } else {
      NatToStringDigits(n);
    }
  }

  // ---------------------------------------------------------------------
  // parseInt

  /** ECMAScript StrWhiteSpaceChar: WhiteSpace (TAB, VT, FF, ZWNBSP and every
      Unicode "Zs" space) and LineTerminator (LF, CR, LS, PS). */
  predicate IsStrWhiteSpace(c: char) {
    c == '\t' || c == '\n' || c == '\U{000B}' || c == '\U{000C}' || c == '\r' ||
    c == ' ' || c == '\U{00A0}' || c == '\U{1680}' || ('\U{2000}' <= c <= '\U{200A}') ||
    c == '\U{2028}' || c == '\U{2029}' || c == '\U{202F}' || c == '\U{205F}' ||
    c == '\U{3000}' || c == '\U{FEFF}'
  }

  /** Drops leading white space. */
  function TrimStart(s: string): (r: string)
    ensures |r| <= |s| && r == s[|s| - |r|..]
    ensures r == [] || !IsStrWhiteSpace(r[0])
  {
    if s != [] && IsStrWhiteSpace(s[0]) then TrimStart(s[1..]) else s
  }

  /** The value of a letter-or-digit in radix 36 (`'a'`/`'A'` is 10), or 36 for any other character. */
  function DigitValue(c: char): (v: nat)
    ensures v <= 36
  {
    if '0' <= c <= '9' then c as int - '0' as int
    else if 'a' <= c <= 'z' then c as int - 'a' as int + 10
    else if 'A' <= c <= 'Z' then c as int - 'A' as int + 10
    else 36
  }

  /** The longest prefix of `s` made of digits of the given radix. */
  function DigitPrefix(s: string, radix: nat): (r: string)
    ensures |r| <= |s| && r == s[..|r|]
    ensures forall i :: 0 <= i < |r| ==> DigitValue(r[i]) < radix
    ensures |r| < |s| ==> DigitValue(s[|r|]) >= radix
  {
    if s != [] && DigitValue(s[0]) < radix then [s[0]] + DigitPrefix(s[1..], radix) else []
  }

  /** Positional value of a digit string, most significant digit first. */
  function DigitsValue(ds: string, radix: nat): nat {
    if ds == [] then 0
    else DigitsValue(ds[..|ds| - 1], radix) * radix + DigitValue(ds[|ds| - 1])
  }

  /** `parseInt(s)` with no radix argument: skip white space, read an optional
      sign, read a hexadecimal numeral after `0x`/`0X` or else a decimal one,
      and stop at the first character that is not a digit; no digit at all is NaN. */
  function ParseInt(s: string): Parsed {
    var t := TrimStart(s);
    var neg := |t| > 0 && t[0] == '-';
    var u := if |t| > 0 && (t[0] == '-' || t[0] == '+') then t[1..] else t;
    var hex := |u| >= 2 && u[0] == '0' && (u[1] == 'x' || u[1] == 'X');
    var radix := if hex then 16 else 10;
    var ds := DigitPrefix(if hex then u[2..] else u, radix);
    if ds == [] then NaN
    else
      var m: int := DigitsValue(ds, radix);
      Num(if neg then -m else m)
  }

  /** `parseInt(undefined)` reads the string "undefined", which is NaN. */
  function ParseParam(param: Option<string>): (p: Parsed)
    ensures param.None? ==> p == NaN
  {
    match param
    case None => NaN
    case Some(s) => ParseInt(s)
  }

  lemma {:induction false} DigitPrefixOfDigits(s: string, radix: nat)
    requires forall i :: 0 <= i < |s| ==> DigitValue(s[i]) < radix
    ensures DigitPrefix(s, radix) == s
    decreases |s|
  {
    if s != [] {
      DigitPrefixOfDigits(s[1..], radix);
      assert [s[0]] + s[1..] == s;
    }
  }

  lemma {:induction false} NatToStringValue(n: nat)
    ensures DigitsValue(NatToString(n), 10) == n
    decreases n
  {
    var s := NatToString(n);
    if n < 10 {
      assert s[..0] == [];
    } else {
      NatToStringValue(n / 10);
      assert s[..|s| - 1] == NatToString(n / 10);
    }
  }

  lemma NumeralParses(u: string, m: nat)
    requires u == NatToString(m)
    ensures !(|u| >= 2 && u[0] == '0' && (u[1] == 'x' || u[1] == 'X'))
    ensures DigitPrefix(u, 10) == u && DigitsValue(u, 10) == m
  {
    NatToStringDigits(m);
    NatToStringValue(m);
    assert forall i :: 0 <= i < |u| ==> DigitValue(u[i]) < 10;
    DigitPrefixOfDigits(u, 10);
  }

  /** What the client's `toString` writes, the server's `parseInt` reads back. */
  lemma ParseIntOfIntToString(n: int)
    ensures ParseInt(IntToString(n)) == Num(n)
  {
    var m: nat := if n < 0 then -n else n;
    var t := IntToString(n);
    NatToStringDigits(m);
    assert !IsStrWhiteSpace(t[0]);
    assert TrimStart(t) == t;
    NumeralParses(NatToString(m), m);
    if n < 0 {
      assert t[1..] == NatToString(m);
    }
  }

  /** Distinct integers have distinct decimal forms. */
  lemma IntToStringInjective(a: int, b: int)
    requires IntToString(a) == IntToString(b)
    ensures a == b
  {
    ParseIntOfIntToString(a);
    ParseIntOfIntToString(b);
  }

  lemma SeparatorAt(pre: string, x: string, sep: string, y: string)
    requires |sep| > 0
    ensures (pre + x + sep + y)[|pre| + |x|] == sep[0]
  {
  }

  /** Two integers written after a common prefix and around a separator that
      cannot occur in a numeral can be read back: the joined string
      determines both integers. */
  lemma {:induction false} JoinedNumeralsInjective(pre: string, sep: string, a1: int, b1: int, a2: int, b2: int)
    requires |sep| > 0 && !IsDecimalDigit(sep[0]) && sep[0] != '-'
    requires pre + IntToString(a1) + sep + IntToString(b1) == pre + IntToString(a2) + sep + IntToString(b2)
    ensures a1 == a2 && b1 == b2
  {
    var x1, x2 := IntToString(a1), IntToString(a2);
    var s1 := pre + x1 + sep + IntToString(b1);
    var s2 := pre + x2 + sep + IntToString(b2);
    IntToStringChars(a1);
    IntToStringChars(a2);
    if |x1| < |x2| {
      SeparatorAt(pre, x1, sep, IntToString(b1));
      assert false;
    } else if |x2| < |x1| {
      SeparatorAt(pre, x2, sep, IntToString(b2));
      assert false;
    }
    assert x1 == s1[|pre|..|pre| + |x1|] == x2;
    IntToStringInjective(a1, a2);
    assert IntToString(b1) == s1[|pre| + |x1| + |sep|..] == IntToString(b2);
    IntToStringInjective(b1, b2);
  }
}
