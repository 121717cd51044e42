/** The two JavaScript string built-ins the routes rely on, as ECMA-262 defines them.
    `convertToInt` (api/routes/feedback.js:176-178, repeated in api/routes/feedbackRoutes.js:71-73)
    is `parseInt` with no radix (section 19.2.5), applied to the string form of a request value;
    `None` stands for NaN. It skips leading white space, reads an optional sign, strips a `0x`/`0X`
    prefix (radix 16, otherwise 10), and reads the longest run of digits of that radix; no digit at
    all gives NaN. `String.prototype.trim` removes the same white space from both ends
    (api/routes/password.js:166). */
module JsText {
  import opened Common

  /** The white space and line terminators `parseInt` skips (StrWhiteSpaceChar). */
  predicate IsSpace(c: char)
  {
    c == '\t' || c == '\n' || c == '\U{B}' || c == '\U{C}' || c == '\r' || c == ' '
    || c == '\U{A0}' || c == '\U{1680}' || ('\U{2000}' <= c <= '\U{200A}')
    || c == '\U{2028}' || c == '\U{2029}' || c == '\U{202F}' || c == '\U{205F}'
    || c == '\U{3000}' || c == '\U{FEFF}'
  }

  /** The value of `c` as a digit, when it is one in some radix up to 36. */
  function DigitValue(c: char): (d: Option<nat>)
    ensures d.Some? ==> d.value < 36
    ensures '0' <= c <= '9' ==> d == Some(c as nat - '0' as nat)
  {
    if '0' <= c <= '9' then Some(c as nat - '0' as nat)
    else if 'a' <= c <= 'z' then Some(c as nat - 'a' as nat + 10)
    else if 'A' <= c <= 'Z' then Some(c as nat - 'A' as nat + 10)
    else None
  }

  predicate IsDigit(c: char, radix: nat)
  {
    DigitValue(c).Some? && DigitValue(c).value < radix
  }

  /** The number of white-space characters that begin `s`. */
  function LeadingSpace(s: string): (n: nat)
    ensures n <= |s|
    ensures forall i :: 0 <= i < n ==> IsSpace(s[i])
    ensures n < |s| ==> !IsSpace(s[n])
  {
    if s != [] && IsSpace(s[0]) then 1 + LeadingSpace(s[1..]) else 0
  }

  /** `s` without its leading white space. */
  function TrimStart(s: string): (r: string)
    ensures r == s[LeadingSpace(s)..]
  {
    if s != [] && IsSpace(s[0]) then TrimStart(s[1..]) else s
  }

  /** `s` without its trailing white space: a prefix of `s`, and what was cut is white space. */
  function TrimEnd(s: string): (r: string)
    ensures r <= s
    ensures forall i :: |r| <= i < |s| ==> IsSpace(s[i])
    ensures r == [] || !IsSpace(r[|r| - 1])
  {
    if s != [] && IsSpace(s[|s| - 1]) then TrimEnd(s[..|s| - 1]) else s
  }

  /** `s.trim()`: what follows the leading white space of `s`, up to where only white space is
      left. */
  function Trim(s: string): (r: string)
    ensures r <= s[LeadingSpace(s)..]
    ensures forall k :: LeadingSpace(s) + |r| <= k < |s| ==> IsSpace(s[k])
    ensures r == [] || (!IsSpace(r[0]) && !IsSpace(r[|r| - 1]))
  {
    var t := TrimStart(s);
    var r := TrimEnd(t);
    forall k | LeadingSpace(s) + |r| <= k < |s|
      ensures IsSpace(s[k])
    {
      assert s[k] == t[k - LeadingSpace(s)];
    }
    assert r != [] ==> r[0] == t[0];
    r
  }

  /** Trimming twice is trimming once. */
  lemma TrimIdempotent(s: string)
    ensures Trim(Trim(s)) == Trim(s)
  {
    var r := Trim(s);
    if r != [] {
      assert TrimStart(r) == r;
      assert TrimEnd(r) == r;
    }
  }

  /** The length of the longest prefix of `s` made of digits of `radix`. */
  function DigitRun(s: string, radix: nat): (n: nat)
    ensures n <= |s|
    ensures forall i :: 0 <= i < n ==> IsDigit(s[i], radix)
    ensures n < |s| ==> !IsDigit(s[n], radix)
  {
    if s != [] && IsDigit(s[0], radix) then 1 + DigitRun(s[1..], radix) else 0
  }

  /** The value of a run of digits, most significant first. */
  function DigitsValue(z: string, radix: nat): int
    requires forall i :: 0 <= i < |z| ==> IsDigit(z[i], radix)
  {
    if z == [] then 0
    else
      var last := z[|z| - 1];
      assert IsDigit(last, radix);
      DigitsValue(z[..|z| - 1], radix) * radix + DigitValue(last).value
  }

  /** What `parseInt` reads after the sign: a `0x`/`0X` prefix selects radix 16. */
  function ReadUnsigned(u: string): (r: Option<int>)
  {
    if |u| >= 2 && u[0] == '0' && (u[1] == 'x' || u[1] == 'X') then ReadRun(u[2..], 16)
    else ReadRun(u, 10)
  }

  /** The value of the longest run of digits of `radix` that starts `w`; none at all is NaN. */
  function ReadRun(w: string, radix: nat): (r: Option<int>)
    ensures r.None? <==> w == [] || !IsDigit(w[0], radix)
  {
    var n := DigitRun(w, radix);
    if n == 0 then None else Some(DigitsValue(w[..n], radix))
  }

  /** `parseInt(s)`: `None` is NaN. */
  function ParseDigits(s: string): (r: Option<int>)
  {
    var t := TrimStart(s);
    if t != [] && t[0] == '-' then
      match ReadUnsigned(t[1..])
      case None => None
      case Some(v) => Some(-v)
    else
      var u := if t != [] && t[0] == '+' then t[1..] else t;
      match ReadUnsigned(u)
      case None => None
      case Some(v) => Some(v)
  }

  /** `convertToInt`: an absent value (`undefined`) gives NaN. */
  function ConvertToInt(raw: Option<string>): (r: Option<int>)
    ensures raw.None? ==> r.None?
  {
    if raw.None? then None else ParseDigits(raw.value)
  }

  /** The decimal digits of `n`, most significant first, with no leading zero. */
  function Decimal(n: nat): (s: string)
    ensures |s| > 0 && (forall i :: 0 <= i < |s| ==> '0' <= s[i] <= '9')
    ensures |s| > 1 ==> s[0] != '0'
  {
    if n < 10 then [('0' as nat + n) as char]
    else Decimal(n / 10) + [('0' as nat + n % 10) as char]
  }

  /** The string JavaScript makes of an integer: `String(n)`. */
  function IntString(n: int): (s: string)
  {
    if n < 0 then "-" + Decimal(-n) else Decimal(n)
  }

  lemma {:induction false} DecimalValue(n: nat)
    ensures forall i :: 0 <= i < |Decimal(n)| ==> IsDigit(Decimal(n)[i], 10)
    ensures DigitsValue(Decimal(n), 10) == n
  {
    var s := Decimal(n);
    if n >= 10 {
      DecimalValue(n / 10);
      assert s[..|s| - 1] == Decimal(n / 10);
    }
  }

  /** The decimal form of a natural number reads back as that number. */
  lemma ReadDecimal(m: nat)
    ensures ReadUnsigned(Decimal(m)) == Some(m)
  {
    DecimalValue(m);
    ReadDigits(Decimal(m));
  }

  /** A non-empty run of decimal digits reads back as its value: it has no `0x` prefix and is read
      whole. */
  lemma ReadDigits(d: string)
    requires |d| > 0 && forall i :: 0 <= i < |d| ==> '0' <= d[i] <= '9'
    requires forall i :: 0 <= i < |d| ==> IsDigit(d[i], 10)
    ensures ReadUnsigned(d) == Some(DigitsValue(d, 10))
  {
    if |d| >= 2 {
      assert '0' <= d[1] <= '9';
    }
    DigitRunAll(d, 10);
    assert d[..|d|] == d;
  }

  /** `convertToInt` reads back every integer from its string form. */
  lemma ParseIntString(n: int)
    ensures ConvertToInt(Some(IntString(n))) == Some(n)
  {
    var m := if n < 0 then -n else n;
    ReadDecimal(m);
    var s := IntString(n);
    assert !IsSpace(s[0]);
    if n < 0 {
      assert s[1..] == Decimal(m);
    }
  }

  /** A string of digits is read whole. */
  lemma {:induction false} DigitRunAll(s: string, radix: nat)
    requires forall i :: 0 <= i < |s| ==> IsDigit(s[i], radix)
    ensures DigitRun(s, radix) == |s|
  {
    if s != [] {
      DigitRunAll(s[1..], radix);
    }
  }

  /** Leading white space does not change what `convertToInt` reads. */
  lemma SpaceIgnored(c: char, s: string)
    requires IsSpace(c)
    ensures ConvertToInt(Some([c] + s)) == ConvertToInt(Some(s))
  {
    assert ([c] + s)[1..] == s;
  }

  /** Only the digit run counts: whatever follows it is ignored. Leading zeros are read as decimal
      digits; only a lone "0" followed by `x` or `X` starts a hexadecimal run instead. */
  lemma {:induction false} TrailingIgnored(z: string, rest: string)
    requires |z| > 0 && forall i :: 0 <= i < |z| ==> '0' <= z[i] <= '9'
    requires rest == [] || !('0' <= rest[0] <= '9')
    requires !(z == "0" && rest != [] && (rest[0] == 'x' || rest[0] == 'X'))
    ensures ConvertToInt(Some(z + rest)) == Some(DigitsValue(z, 10))
  {
    var s := z + rest;
    assert !IsSpace(s[0]);
    if |s| >= 2 && s[0] == '0' {
      if |z| >= 2 {
        assert s[1] == z[1];
      } else {
        assert z == "0";
        assert s[1] == rest[0];
      }
    }
    DigitRunSplit(z, rest, 10);
    assert s[..|z|] == z;
  }

  lemma {:induction false} DigitRunSplit(z: string, rest: string, radix: nat)
    requires forall i :: 0 <= i < |z| ==> IsDigit(z[i], radix)
    requires rest == [] || !IsDigit(rest[0], radix)
    ensures DigitRun(z + rest, radix) == |z|
  {
    if z != [] {
      assert (z + rest)[1..] == z[1..] + rest;
      DigitRunSplit(z[1..], rest, radix);
    }
  }
}
