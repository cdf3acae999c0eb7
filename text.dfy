/** The JavaScript string operations the storefront relies on, with the semantics the
    ECMAScript standard gives them: the white-space set of `\s` and `trim`, `includes`,
    `startsWith`, `toLowerCase` (restricted to ASCII letters), template-literal rendering
    of an integer, and `parseInt` with no radix argument. */
module Text {
  import opened Wrappers

  // ---------------------------------------------------------------- white space

  /** The characters matched by `\s` and removed by `trim()`: WhiteSpace (TAB, VT, FF,
      ZWNBSP and every space separator of Unicode category Zs) and LineTerminator
      (LF, CR, LS, PS), as section 22.2 and section 12.2 of ECMA-262 define them. */
  predicate IsSpace(c: char) {
    c == '\t' || c == '\n' || c == '\U{000B}' || c == '\U{000C}' || c == '\r' || c == ' '
    || c == '\U{00A0}' || c == '\U{1680}' || ('\U{2000}' <= c <= '\U{200A}')
    || c == '\U{2028}' || c == '\U{2029}' || c == '\U{202F}' || c == '\U{205F}'
    || c == '\U{3000}' || c == '\U{FEFF}'
  }

  /** Every character of `s` is white space (true of the empty string). */
  predicate AllSpace(s: string) {
    forall i :: 0 <= i < |s| ==> IsSpace(s[i])
  }

  /** No character of `s` is white space. */
  predicate NoSpace(s: string) {
    forall i :: 0 <= i < |s| ==> !IsSpace(s[i])
  }

  /** `s.trimStart()`: drops the leading run of white space (`TrimStartSpec`). */
  function TrimStart(s: string): string {
    if s != [] && IsSpace(s[0]) then TrimStart(s[1..]) else s
  }

  /** `trimStart()` leaves a suffix of `s` that does not start with white space, and what
      it drops is all white space. */
  lemma {:induction false} TrimStartSpec(s: string)
    ensures var r := TrimStart(s);
      |r| <= |s| && r == s[|s| - |r|..] && AllSpace(s[..|s| - |r|]) && (r == [] || !IsSpace(r[0]))
  {
    if s != [] && IsSpace(s[0]) {
      TrimStartSpec(s[1..]);
      var r := TrimStart(s);
      assert s[|s| - |r|..] == s[1..][|s| - 1 - |r|..];
      assert s[..|s| - |r|] == [s[0]] + s[1..][..|s| - 1 - |r|];
    }
  }

  /** `s.trimEnd()`: drops the trailing run of white space (`TrimEndSpec`). */
  function TrimEnd(s: string): string {
    if s != [] && IsSpace(s[|s| - 1]) then TrimEnd(s[..|s| - 1]) else s
  }

  /** `trimEnd()` leaves a prefix of `s` that does not end with white space, and what it
      drops is all white space. */
  lemma {:induction false} TrimEndSpec(s: string)
    ensures var r := TrimEnd(s);
      |r| <= |s| && r == s[..|r|] && AllSpace(s[|r|..]) && (r == [] || !IsSpace(r[|r| - 1]))
  {
    if s != [] && IsSpace(s[|s| - 1]) {
      TrimEndSpec(s[..|s| - 1]);
      var r := TrimEnd(s);
      assert s[..|s| - 1][..|r|] == s[..|r|];
      assert s[|r|..] == s[..|s| - 1][|r|..] + [s[|s| - 1]];
    }
  }

  /** `s.trim()` */
  function Trim(s: string): string {
    TrimEnd(TrimStart(s))
  }

  /** `!s.trim()`: `s` is white space only, so trimming it leaves the empty, falsy string
      (`TrimBlank`). */
  predicate IsBlank(s: string) {
    AllSpace(s)
  }

  /** A string trims to nothing exactly when it is white space only. */
  lemma TrimBlank(s: string)
    ensures Trim(s) == "" <==> IsBlank(s)
  {
    TrimStartSpec(s);
    var t := TrimStart(s);
    TrimEndSpec(t);
    assert s == s[..|s| - |t|] + t;
    if Trim(s) == "" {
      assert t[|TrimEnd(t)|..] == t;
      assert t == [];
    }
  }

  // ---------------------------------------------------------------- length

  /** A character JavaScript stores in one UTF-16 code unit: one of the Basic Multilingual
      Plane. Every other character takes a surrogate pair. */
  predicate InBmp(c: char) {
    c as int <= 0xFFFF
  }

  /** The code units `c` takes in a JavaScript string. */
  function CodeUnits(c: char): nat {
    if InBmp(c) then 1 else 2
  }

  /** `s.length`: JavaScript counts UTF-16 code units, not characters. */
  function Utf16Length(s: string): nat {
    if s == [] then 0 else CodeUnits(s[0]) + Utf16Length(s[1..])
  }

  /** A string is at least as long in code units as in characters and at most twice as
      long, and the two counts agree exactly when every character is in the Basic
      Multilingual Plane. */
  lemma {:induction false} Utf16LengthBounds(s: string)
    ensures |s| <= Utf16Length(s) <= 2 * |s|
    ensures Utf16Length(s) == |s| <==> forall i :: 0 <= i < |s| ==> InBmp(s[i])
  {
    if s != [] {
      Utf16LengthBounds(s[1..]);
      assert forall i :: 1 <= i < |s| ==> s[i] == s[1..][i - 1];
      if Utf16Length(s) == |s| {
        assert InBmp(s[0]);
        forall i | 0 <= i < |s|
          ensures InBmp(s[i])
        {
          if i > 0 { assert s[i] == s[1..][i - 1]; }
        }
      }
    }
  }

  // ---------------------------------------------------------------- search

  /** `sub` occurs in `s` starting at index `i`. */
  predicate OccursAt(s: string, sub: string, i: int) {
    0 <= i <= |s| - |sub| && s[i..i + |sub|] == sub
  }

  /** `s.includes(sub)`: `sub` occurs in `s` at some position. */
  predicate Contains(s: string, sub: string) {
    exists i :: 0 <= i <= |s| - |sub| && OccursAt(s, sub, i)
  }

  /** `s.startsWith(prefix)` */
  predicate StartsWith(s: string, prefix: string) {
    |prefix| <= |s| && s[..|prefix|] == prefix
  }

  /** `toLowerCase` on one character, for the ASCII letters; every other character,
      the Persian script included, has no lower-case mapping here. */
  function LowerChar(c: char): char {
    if 'A' <= c <= 'Z' then (c as int + 32) as char else c
  }

  /** `s.toLowerCase()` with the ASCII mapping above. */
  function ToLower(s: string): string {
    seq(|s|, i requires 0 <= i < |s| => LowerChar(s[i]))
  }

  // ---------------------------------------------------------------- numbers

  predicate IsDecimalDigit(c: char) {
    '0' <= c <= '9'
  }

  function DigitChar(d: nat): (c: char)
    requires d < 10
    ensures IsDecimalDigit(c) && c as int - '0' as int == d
  {
    ('0' as int + d) as char
  }

  /** `${n}` for a non-negative integer: decimal digits, no leading zero. */
  function NatToDecimal(n: nat): (r: string)
    ensures |r| >= 1
    ensures forall i :: 0 <= i < |r| ==> IsDecimalDigit(r[i])
    ensures r[0] == '0' ==> r == "0"
  {
    if n < 10 then [DigitChar(n)] else NatToDecimal(n / 10) + [DigitChar(n % 10)]
  }

  /** `${n}` for any integer. */
  function IntToDecimal(n: int): string {
    if n < 0 then "-" + NatToDecimal(-n) else NatToDecimal(n)
  }

  /** The value of a digit character in base 10 or 16 (`parseInt` accepts both cases of
      the hexadecimal letters), or None when it is not a digit of that base. */
  function DigitValue(c: char, radix: nat): (r: Option<nat>)
    requires radix == 10 || radix == 16
    ensures r.Some? ==> r.value < radix
    ensures radix == 10 ==> (r.Some? <==> IsDecimalDigit(c))
    ensures IsDecimalDigit(c) ==> r == Some(c as int - '0' as int)
  {
    if '0' <= c <= '9' then Some(c as int - '0' as int)
    else if radix == 16 && 'a' <= c <= 'f' then Some(c as int - 'a' as int + 10)
    else if radix == 16 && 'A' <= c <= 'F' then Some(c as int - 'A' as int + 10)
    else None
  }

  /** The length of the leading run of digits of `s` in the given base. */
  function DigitRun(s: string, radix: nat): (k: nat)
    requires radix == 10 || radix == 16
    ensures k <= |s|
    ensures forall i :: 0 <= i < k ==> DigitValue(s[i], radix).Some?
    ensures k == |s| || DigitValue(s[k], radix).None?
  {
    if s != [] && DigitValue(s[0], radix).Some? then 1 + DigitRun(s[1..], radix) else 0
  }

  /** The number a run of digits denotes, most significant first. */
  function DigitsValue(ds: string, radix: nat): nat
    requires radix == 10 || radix == 16
    requires forall i :: 0 <= i < |ds| ==> DigitValue(ds[i], radix).Some?
  {
    if ds == [] then 0
    else DigitsValue(ds[..|ds| - 1], radix) * radix + DigitValue(ds[|ds| - 1], radix).value
  }

  /** The longest run of digits at the start of `v`, read in the given base; None when
      `v` does not start with a digit. */
  function LeadingNumber(v: string, radix: nat): Option<nat>
    requires radix == 10 || radix == 16
  {
    var k := DigitRun(v, radix);
    if k == 0 then None else Some(DigitsValue(v[..k], radix))
  }

  /** Removes one leading sign character, if any. */
  function Unsigned(t: string): string {
    if t != [] && (t[0] == '-' || t[0] == '+') then t[1..] else t
  }

  /** `u` starts with the `0x`/`0X` prefix of a hexadecimal literal. */
  predicate HexPrefixed(u: string) {
    |u| >= 2 && u[0] == '0' && (u[1] == 'x' || u[1] == 'X')
  }

  /** `parseInt(s)` without a radix, as section 19.2.5 of ECMA-262 defines it: leading
      white space is skipped, one sign is read, a `0x`/`0X` prefix selects base 16, and
      the longest run of digits that follows is the value; no digit at all is `NaN`,
      which the model writes as None. */
  function ParseInt(s: string): Option<int> {
    var t := TrimStart(s);
    var u := Unsigned(t);
    var m := if HexPrefixed(u) then LeadingNumber(u[2..], 16) else LeadingNumber(u, 10);
    match m
    case None => None
    case Some(v) =>
      var value: int := if t != [] && t[0] == '-' then -(v as int) else v;
      Some(value)
  }

  /** The digits `NatToDecimal` writes denote the number they were written from. */
  lemma {:induction false} DecimalValue(n: nat)
    ensures DigitsValue(NatToDecimal(n), 10) == n
  {
    var r := NatToDecimal(n);
    if n >= 10 {
      DecimalValue(n / 10);
      assert r[..|r| - 1] == NatToDecimal(n / 10);
    }
  }

  /** A leading run of `k` digits ended by a non-digit (or by the end) is the run `DigitRun` finds. */
  lemma {:induction false} RunOfDigits(s: string, k: nat)
    requires k <= |s|
    requires forall i :: 0 <= i < k ==> IsDecimalDigit(s[i])
    requires k == |s| || !IsDecimalDigit(s[k])
    ensures DigitRun(s, 10) == k
  {
    if k > 0 {
      RunOfDigits(s[1..], k - 1);
    }
  }

  /** Decimal digits followed by something that is not a digit read back as their value. */
  lemma ReadDecimal(n: nat, rest: string)
    requires rest == [] || !IsDecimalDigit(rest[0])
    ensures LeadingNumber(NatToDecimal(n) + rest, 10) == Some(n)
  {
    var d := NatToDecimal(n);
    var u := d + rest;
    assert forall i :: 0 <= i < |d| ==> u[i] == d[i];
    assert |d| < |u| ==> u[|d|] == rest[0];
    RunOfDigits(u, |d|);
    assert u[..|d|] == d;
    DecimalValue(n);
  }

  /** An unsigned rendering followed by such text: no hexadecimal prefix, and the
      leading number is the rendered one. */
  lemma ReadUnsigned(m: nat, rest: string)
    requires rest == [] || (!IsDecimalDigit(rest[0]) && rest[0] != 'x' && rest[0] != 'X')
    ensures !HexPrefixed(NatToDecimal(m) + rest)
    ensures LeadingNumber(NatToDecimal(m) + rest, 10) == Some(m)
  {
    var d := NatToDecimal(m);
    var u := d + rest;
    if |u| >= 2 && u[0] == '0' {
      assert d[0] == '0';
      assert |d| == 1;
      assert u[1] == rest[0];
    }
    ReadDecimal(m, rest);
  }

  /** A string that does not start with white space is its own `trimStart()`. */
  lemma NoLeadingSpace(s: string)
    requires s != [] && !IsSpace(s[0])
    ensures TrimStart(s) == s
  {
  }

  /** `parseInt` reads back a rendered integer, whatever non-digit text follows it
      (other than an `x` right after a lone `0`, which would select base 16). */
  lemma ParseRendered(n: int, rest: string)
    requires rest == [] || (!IsDecimalDigit(rest[0]) && rest[0] != 'x' && rest[0] != 'X')
    ensures ParseInt(IntToDecimal(n) + rest) == Some(n)
  {
    var m: nat := if n < 0 then -n else n;
    var u := NatToDecimal(m) + rest;
    ReadUnsigned(m, rest);
    assert u[0] == NatToDecimal(m)[0];
    assert IsDecimalDigit(u[0]);
    if n < 0 {
      var s := "-" + u;
      assert IntToDecimal(n) + rest == s;
      NoLeadingSpace(s);
      assert s[1..] == u;
      assert Unsigned(s) == u;
    } else {
      assert IntToDecimal(n) + rest == u;
      NoLeadingSpace(u);
      assert Unsigned(u) == u;
    }
  }
}
