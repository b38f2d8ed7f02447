/** The string handling of the engine: Python's `str.strip`, the address
    check nested in `simulate_transaction`, Python's `int(s)` and
    `int(s, 16)` as used for `value`, `gas` and `gas_price`, and the
    decimal rendering of an `int` inside an f-string. */
module Text {
  import opened Outcomes

  /** Python's `str.isspace` for one character. */
  predicate IsSpace(c: char)
  {
    c == '\t' || c == '\n' || c == '\U{B}' || c == '\U{C}' || c == '\r'
    || ('\U{1C}' <= c <= '\U{1F}') || c == ' ' || c == '\U{85}' || c == '\U{A0}'
    || c == '\U{1680}' || ('\U{2000}' <= c <= '\U{200A}') || c == '\U{2028}'
    || c == '\U{2029}' || c == '\U{202F}' || c == '\U{205F}' || c == '\U{3000}'
  }

  /** No whitespace character is a digit, a sign or the `x` of a hexadecimal
      prefix, so stripping never removes part of a literal or an address. */
  lemma SpaceIsNotLiteral(c: char)
    ensures IsSpace(c) ==> !IsHexDigit(c) && c != '-' && c != '+' && c != 'x'
  {
  }

  predicate AllSpace(s: string)
  {
    forall k :: 0 <= k < |s| ==> IsSpace(s[k])
  }

  /** U+001C to U+001F, the information separators: `str.isspace` counts them
      as whitespace, but `int` does not skip them around a literal. */
  predicate IsSeparator(c: char)
  {
    '\U{1C}' <= c <= '\U{1F}'
  }

  predicate NoSeparator(s: string)
  {
    forall k :: 0 <= k < |s| ==> !IsSeparator(s[k])
  }

  /** The whitespace `int` skips around a literal: ASCII tab, line feed,
      vertical tab, form feed, carriage return and space, and every
      non-ASCII whitespace character. */
  predicate IntSpace(c: char)
  {
    IsSpace(c) && !IsSeparator(c)
  }

  predicate AllIntSpace(s: string)
  {
    forall k :: 0 <= k < |s| ==> IntSpace(s[k])
  }

  lemma IntSpaceIsSpace(s: string)
    requires AllIntSpace(s)
    ensures AllSpace(s) && NoSeparator(s)
  {
  }

  lemma NoSeparatorPadded(p: string, s: string, q: string)
    requires NoSeparator(p) && NoSeparator(q)
    ensures NoSeparator(p + s + q) <==> NoSeparator(s)
  {
    NoSeparatorConcat(p, s);
    NoSeparatorConcat(p + s, q);
  }

  lemma NoSeparatorConcat(a: string, b: string)
    ensures NoSeparator(a + b) <==> NoSeparator(a) && NoSeparator(b)
  {
    if NoSeparator(a + b) {
      forall k | 0 <= k < |b| ensures !IsSeparator(b[k]) { assert b[k] == (a + b)[|a| + k]; }
      forall k | 0 <= k < |a| ensures !IsSeparator(a[k]) { assert a[k] == (a + b)[k]; }
    }
    if NoSeparator(a) && NoSeparator(b) {
      forall k | 0 <= k < |a + b| ensures !IsSeparator((a + b)[k]) {
        if k < |a| { assert (a + b)[k] == a[k]; } else { assert (a + b)[k] == b[k - |a|]; }
      }
    }
  }

  /** The number of whitespace characters `s` starts with. */
  function LeadingSpaces(s: string): (n: nat)
    ensures n <= |s| && AllSpace(s[..n])
    ensures n < |s| ==> !IsSpace(s[n])
  {
    if s == [] || !IsSpace(s[0]) then 0
    else
      var m := LeadingSpaces(s[1..]);
      PrefixOfTail(s, m);
      1 + m
  }

  /** The number of whitespace characters `s` ends with. */
  function TrailingSpaces(s: string): (n: nat)
    ensures n <= |s| && AllSpace(s[|s| - n..])
    ensures n < |s| ==> !IsSpace(s[|s| - n - 1])
  {
    if s == [] || !IsSpace(s[|s| - 1]) then 0
    else
      var m := TrailingSpaces(s[..|s| - 1]);
      SuffixOfInit(s, m);
      1 + m
  }

  /** Index arithmetic for the two counts above, kept apart from the
      whitespace test. */
  lemma PrefixOfTail(s: string, m: nat)
    requires m < |s|
    ensures forall k :: 1 <= k < 1 + m ==> s[k] == s[1..][..m][k - 1]
  {
  }

  lemma SuffixOfInit(s: string, m: nat)
    requires m < |s|
    ensures forall k :: |s| - 1 - m <= k < |s| - 1 ==> s[k] == s[..|s| - 1][|s| - 1 - m..][k - (|s| - 1 - m)]
  {
  }

  /** Python's `str.strip()` with no argument: `s` without its leading and
      trailing whitespace. The result is a slice of `s` that is empty only
      when `s` is all whitespace and otherwise starts and ends with a
      non-whitespace character. */
  function Strip(s: string): (r: string)
    ensures |r| <= |s|
    ensures r == [] <==> AllSpace(s)
    ensures r != [] ==> !IsSpace(r[0]) && !IsSpace(r[|r| - 1])
  {
    var i := LeadingSpaces(s);
    var t := s[i..];
    var n := TrailingSpaces(t);
    StripEmpty(s, i, n);
    StripNonEmpty(s, i);
    t[..|t| - n]
  }

  /** An empty stripped slice means `s` is all whitespace. */
  lemma StripEmpty(s: string, i: nat, n: nat)
    requires i <= |s| && AllSpace(s[..i])
    requires n <= |s| - i && AllSpace(s[i..][|s| - i - n..])
    ensures n == |s| - i ==> AllSpace(s)
  {
    if n == |s| - i {
      forall k | 0 <= k < |s| ensures IsSpace(s[k]) {
        if k < i { assert s[k] == s[..i][k]; } else { assert s[k] == s[i..][|s| - i - n..][k - i]; }
      }
    }
  }

  /** A string that is all whitespace has no first non-whitespace character. */
  lemma StripNonEmpty(s: string, i: nat)
    requires i <= |s| && (i < |s| ==> !IsSpace(s[i]))
    ensures AllSpace(s) ==> i == |s|
  {
    if i < |s| {
      assert !IsSpace(s[i]);
    }
  }

  /** A string made of `p`, then `r`, then `q`, where `p` and `q` are all
      whitespace and `r` neither starts nor ends with whitespace, strips
      to `r`: stripping is determined by this decomposition. */
  lemma StripDecomposition(p: string, r: string, q: string)
    requires AllSpace(p) && AllSpace(q)
    requires r != [] ==> !IsSpace(r[0]) && !IsSpace(r[|r| - 1])
    ensures Strip(p + r + q) == r
  {
    var s := p + r + q;
    if r == [] {
      assert AllSpace(s) by {
        forall k | 0 <= k < |s| ensures IsSpace(s[k]) {
          if k < |p| { assert s[k] == p[k]; } else { assert s[k] == q[k - |p|]; }
        }
      }
    } else {
      var i := LeadingSpaces(s);
      assert s[|p|] == r[0];
      assert i == |p|;
      var t := s[i..];
      assert t == r + q;
      var n := TrailingSpaces(t);
      assert t[|t| - |q| - 1] == r[|r| - 1];
      assert n == |q|;
    }
  }

  /** Whitespace around a string does not change what it strips to. */
  lemma StripIgnoresPadding(p: string, s: string, q: string)
    requires AllSpace(p) && AllSpace(q)
    ensures Strip(p + s + q) == Strip(s)
  {
    var r := Strip(s);
    var p', q' := StripParts(s);
    Regroup(p, p', r, q', q);
    AllSpaceConcat(p, p');
    AllSpaceConcat(q', q);
    StripDecomposition(p + p', r, q' + q);
  }

  /** Concatenation regrouped: a sequence identity kept apart from the
      whitespace facts so that the solver proves it on its own. */
  lemma Regroup(a: string, b: string, c: string, d: string, e: string)
    ensures a + (b + c + d) + e == (a + b) + c + (d + e)
  {
  }

  /** `s` is its stripped form with whitespace on either side. */
  lemma StripParts(s: string) returns (p: string, q: string)
    ensures s == p + Strip(s) + q && AllSpace(p) && AllSpace(q)
  {
    var i := LeadingSpaces(s);
    var t := s[i..];
    var n := TrailingSpaces(t);
    p, q := s[..i], t[|t| - n..];
    SplitThree(s, i, n);
  }

  /** Cutting a prefix of `i` and then a suffix of `n` splits `s` in three. */
  lemma SplitThree(s: string, i: nat, n: nat)
    requires i + n <= |s|
    ensures s == s[..i] + s[i..][..|s| - i - n] + s[i..][|s| - i - n..]
  {
    var t := s[i..];
    assert t == t[..|t| - n] + t[|t| - n..];
    assert s == s[..i] + t;
  }

  lemma AllSpaceConcat(a: string, b: string)
    requires AllSpace(a) && AllSpace(b)
    ensures AllSpace(a + b)
  {
    forall k | 0 <= k < |a + b| ensures IsSpace((a + b)[k]) {
      if k < |a| { assert (a + b)[k] == a[k]; } else { assert (a + b)[k] == b[k - |a|]; }
    }
  }

  /** Stripping twice is stripping once. */
  lemma StripIdempotent(s: string)
    ensures Strip(Strip(s)) == Strip(s)
  {
    var r := Strip(s);
    assert r == [] + r + [];
    StripDecomposition([], r, []);
  }

  predicate StartsWith(s: string, prefix: string)
  {
    |prefix| <= |s| && s[..|prefix|] == prefix
  }

  /** The address check nested in `simulate_transaction`: after stripping
      whitespace the address is accepted exactly when it starts with `0x` and
      is 42 characters long; nothing looks at the other 40 characters. The
      error is the text of the `ValueError` it raises. */
  function NormalizeAddress(addr: string): (r: Outcome<string>)
    ensures r.Ok? <==> |Strip(addr)| == 42 && Strip(addr)[0] == '0' && Strip(addr)[1] == 'x'
    ensures r.Ok? ==> r.value == Strip(addr)
    ensures r.Fail? ==> r.msg == "Invalid address format: " + Strip(addr)
  {
    var a := Strip(addr);
    if !StartsWith(a, "0x") || |a| != 42 then Fail("Invalid address format: " + a)
    else Ok(a)
  }

  /** An accepted address is accepted again, unchanged. */
  lemma NormalizeAddressIdempotent(addr: string)
    requires NormalizeAddress(addr).Ok?
    ensures NormalizeAddress(NormalizeAddress(addr).value) == NormalizeAddress(addr)
  {
    StripIdempotent(addr);
  }

  /** Whitespace around an address never changes the verdict or the
      normalized address. */
  lemma NormalizeAddressIgnoresPadding(p: string, addr: string, q: string)
    requires AllSpace(p) && AllSpace(q)
    ensures NormalizeAddress(p + addr + q) == NormalizeAddress(addr)
  {
    StripIgnoresPadding(p, addr, q);
  }

  /** Any 40 characters after `0x` are accepted, hexadecimal or not, as long
      as the last one is not whitespace. */
  lemma NormalizeAddressIgnoresDigits(body: string)
    requires |body| == 40 && !IsSpace(body[39])
    ensures NormalizeAddress("0x" + body) == Ok("0x" + body)
  {
    var a := "0x" + body;
    assert a[0] == '0' && a[|a| - 1] == body[39];
    StripUnpadded(a);
    assert a[..2] == "0x";
  }

  // ---------------------------------------------------------------------
  // Integer literals

  predicate IsHexDigit(c: char)
  {
    '0' <= c <= '9' || 'a' <= c <= 'f' || 'A' <= c <= 'F'
  }

  function DigitValue(c: char): (d: nat)
    requires IsHexDigit(c)
    ensures d < 16
  {
    if '0' <= c <= '9' then c as int - '0' as int
    else if 'a' <= c <= 'f' then c as int - 'a' as int + 10
    else c as int - 'A' as int + 10
  }

  /** `ds` is a non-empty run of digits of the given base (10 or 16; either
      case for the letters). */
  predicate IsDigits(ds: string, base: nat)
  {
    ds != [] && forall k :: 0 <= k < |ds| ==> IsHexDigit(ds[k]) && DigitValue(ds[k]) < base
  }

  /** The number a run of digits denotes, most significant digit first. */
  function DigitsValue(ds: string, base: nat): nat
    requires forall k :: 0 <= k < |ds| ==> IsHexDigit(ds[k])
  {
    if ds == [] then 0
    else DigitsValue(ds[..|ds| - 1], base) * base + DigitValue(ds[|ds| - 1])
  }

  /** The text of the `ValueError` Python's `int` raises on a bad literal: the
      base, then the quoted literal cut to its first 200 characters. The whole
      literal is shown exactly when it fits. */
  function InvalidLiteral(s: string, base: nat): (m: string)
    ensures var head := "invalid literal for int() with base " + (if base == 16 then "16" else "10") + ": ";
      && |m| - |head| == (if |s| + 2 <= 200 then |s| + 2 else 200)
      && m[..|head|] == head
      && m[|head|..] <= "'" + s + "'"
  {
    var head := "invalid literal for int() with base " + (if base == 16 then "16" else "10") + ": ";
    var quoted := "'" + s + "'";
    head + (if |quoted| <= 200 then quoted else quoted[..200])
  }

  /** Python's `int(s)`: optional surrounding whitespace, an optional sign,
      then decimal digits. An information separator anywhere is rejected:
      `int` does not skip it, and it is neither a sign nor a digit. Without
      one, the whitespace `int` skips is the whitespace `strip` removes. */
  function ParseDecimal(s: string): (r: Outcome<int>)
    ensures r.Fail? ==> r.msg == InvalidLiteral(s, 10)
    ensures r.Ok? ==> NoSeparator(s)
  {
    if !NoSeparator(s) then Fail(InvalidLiteral(s, 10))
    else match SignedDecimal(Strip(s))
      case Some(v) => Ok(v)
      case None => Fail(InvalidLiteral(s, 10))
  }

  /** The value of an optional sign followed by decimal digits, if `t` is one:
      an accepted `t` is a sign or a digit, then digits only, ending in a
      digit, and its value is negative only after a `-`. */
  function SignedDecimal(t: string): (r: Option<int>)
    ensures r.Some? ==> t != [] && ('0' <= t[0] <= '9' || t[0] == '-' || t[0] == '+')
    ensures r.Some? ==> forall k :: 0 < k < |t| ==> '0' <= t[k] <= '9'
    ensures r.Some? ==> '0' <= t[|t| - 1] <= '9'
    ensures r.Some? && r.value < 0 ==> t[0] == '-'
  {
    var signed := t != [] && (t[0] == '-' || t[0] == '+');
    var ds := if signed then t[1..] else t;
    if IsDigits(ds, 10) then
      var v: int := DigitsValue(ds, 10);
      Some(if signed && t[0] == '-' then -v else v)
    else None
  }

  /** Whitespace that `int` skips, around a decimal literal, changes neither
      whether `int` accepts it nor the value it reads. */
  lemma DecimalIgnoresPadding(p: string, s: string, q: string)
    requires AllIntSpace(p) && AllIntSpace(q)
    ensures ParseDecimal(p + s + q).Ok? <==> ParseDecimal(s).Ok?
    ensures ParseDecimal(s).Ok? ==> ParseDecimal(p + s + q) == ParseDecimal(s)
  {
    IntSpaceIsSpace(p);
    IntSpaceIsSpace(q);
    StripIgnoresPadding(p, s, q);
    NoSeparatorPadded(p, s, q);
    DecimalOfStripped(p + s + q, s);
  }

  /** Whether `int` accepts a literal, and the value it reads, depend only on
      the stripped literal and on whether it holds a separator. */
  lemma DecimalOfStripped(x: string, y: string)
    requires NoSeparator(x) == NoSeparator(y) && Strip(x) == Strip(y)
    ensures ParseDecimal(x).Ok? == ParseDecimal(y).Ok?
    ensures ParseDecimal(x).Ok? ==> ParseDecimal(x) == ParseDecimal(y)
  {
  }

  /** What `int` accepts in base 10 is made of skipped whitespace, digits and
      signs only, and is not blank; any other character, an information
      separator included, makes it raise. */
  lemma DecimalAcceptedChars(s: string)
    requires ParseDecimal(s).Ok?
    ensures forall k :: 0 <= k < |s| ==> IntSpace(s[k]) || '0' <= s[k] <= '9' || s[k] == '-' || s[k] == '+'
    ensures !AllSpace(s)
  {
    var r := Strip(s);
    var p, q := StripParts(s);
    forall k | 0 <= k < |s|
      ensures IntSpace(s[k]) || '0' <= s[k] <= '9' || s[k] == '-' || s[k] == '+'
    {
      if k < |p| {
        assert s[k] == p[k];
      } else if k < |p| + |r| {
        assert s[k] == r[k - |p|];
      } else {
        assert s[k] == q[k - |p| - |r|];
      }
    }
  }

  /** Python's `int(s, 16)` for a string `s` that starts with `0x`: the
      prefix, then hexadecimal digits, then optional whitespace other than an
      information separator. */
  function ParseHex(s: string): (r: Outcome<int>)
    requires StartsWith(s, "0x")
    ensures r.Ok? ==> r.value >= 0 && NoSeparator(s)
    ensures r.Fail? ==> r.msg == InvalidLiteral(s, 16)
  {
    var body := s[2..];
    var ds := body[..|body| - TrailingSpaces(body)];
    if NoSeparator(s) && IsDigits(ds, 16) then Ok(DigitsValue(ds, 16)) else Fail(InvalidLiteral(s, 16))
  }

  /** The expression used for `value`, `gas` and `gas_price`: a string
      starting with `0x` is read in base 16, anything else in base 10. */
  function ParseQuantity(s: string): (r: Outcome<int>)
    ensures r.Fail? ==> r.msg == InvalidLiteral(s, if StartsWith(s, "0x") then 16 else 10)
    ensures StartsWith(s, "0x") && r.Ok? ==> r.value >= 0
  {
    if StartsWith(s, "0x") then ParseHex(s) else ParseDecimal(s)
  }

  // ---------------------------------------------------------------------
  // Rendering integers

  function DigitChar(d: nat): (c: char)
    requires d < 16
    ensures IsHexDigit(c) && DigitValue(c) == d
  {
    "0123456789abcdef"[d]
  }

  /** The digits of `n` in the given base, most significant first, with no
      leading zero; reading them back gives `n`. */
  function NatToDigits(n: nat, base: nat): (ds: string)
    requires 2 <= base <= 16
    ensures IsDigits(ds, base) && DigitsValue(ds, base) == n
    ensures |ds| > 1 ==> ds[0] != '0'
    decreases n
  {
    if n < base then
      SingleDigit(DigitChar(n), base);
      [DigitChar(n)]
    else
      DivBounds(n, base);
      var init := NatToDigits(n / base, base);
      LastDigit(n, base, init);
      LeadingDigit(init, DigitChar(n % base), base);
      init + [DigitChar(n % base)]
  }

  /** The digits of `n / base` followed by the digit `n % base` denote `n`. */
  lemma LastDigit(n: nat, base: nat, init: string)
    requires 2 <= base <= n && base <= 16
    requires IsDigits(init, base) && DigitsValue(init, base) == n / base
    ensures IsDigits(init + [DigitChar(n % base)], base)
    ensures DigitsValue(init + [DigitChar(n % base)], base) == n
    ensures DigitsValue(init, base) > 0
  {
    var q, d := n / base, n % base;
    var c := DigitChar(d);
    AppendDigit(init, c, base);
    DivMod(n, base);
    calc {
      DigitsValue(init + [c], base);
      DigitsValue(init, base) * base + DigitValue(c);
      q * base + d;
      n;
    }
  }

  /** One digit denotes its own value. */
  lemma SingleDigit(c: char, base: nat)
    requires IsHexDigit(c) && DigitValue(c) < base
    ensures IsDigits([c], base) && DigitsValue([c], base) == DigitValue(c)
  {
    assert [c][..0] == [];
  }

  /** Digits of a positive number with no leading zero keep their first digit
      when one more digit is appended. */
  lemma LeadingDigit(init: string, c: char, base: nat)
    requires IsDigits(init, base) && DigitsValue(init, base) > 0
    requires |init| > 1 ==> init[0] != '0'
    ensures (init + [c])[0] != '0'
  {
    if |init| == 1 {
      assert init[..0] == [];
      assert DigitsValue(init, base) == DigitValue(init[0]);
    }
  }

  /** The quotient is smaller than `n` and the remainder is a digit. */
  lemma DivBounds(n: nat, base: nat)
    requires 2 <= base <= n && base <= 16
    ensures n / base < n && n % base < base
  {
  }

  lemma DivMod(n: nat, base: nat)
    requires base > 0
    ensures (n / base) * base + n % base == n
  {
  }

  /** Appending a digit multiplies by the base and adds the digit's value. */
  lemma AppendDigit(init: string, c: char, base: nat)
    requires IsDigits(init, base) && IsHexDigit(c) && DigitValue(c) < base
    ensures IsDigits(init + [c], base)
    ensures DigitsValue(init + [c], base) == DigitsValue(init, base) * base + DigitValue(c)
  {
    var ds := init + [c];
    assert ds[..|ds| - 1] == init;
  }

  /** `str(n)` / `f"{n}"` for a Python `int`: a `-` exactly for a negative
      number, and a leading `0` only for zero itself. */
  function IntToString(n: int): (s: string)
    ensures s != [] && (s[0] == '-' <==> n < 0)
    ensures s[0] == '0' <==> n == 0
  {
    if n < 0 then "-" + NatToDigits(-n, 10) else NatToDigits(n, 10)
  }

  /** A string with no whitespace at either end strips to itself. */
  lemma StripUnpadded(s: string)
    requires s != [] ==> !IsSpace(s[0]) && !IsSpace(s[|s| - 1])
    ensures Strip(s) == s
  {
    assert s == [] + s + [];
    StripDecomposition([], s, []);
  }

  /** Rendering an integer and reading it back with `int(...)` gives the
      integer: the decimal rendering and the decimal parser agree. */
  lemma IntToStringRoundTrip(n: int)
    ensures ParseQuantity(IntToString(n)) == Ok(n)
  {
    var s := IntToString(n);
    IntToStringUnpadded(n);
    NoHexPrefix(s);
    DecimalRoundTrip(n);
  }

  /** A string whose second character is a digit does not start with `0x`. */
  lemma NoHexPrefix(s: string)
    requires |s| < 2 || s[0] == '-' || '0' <= s[1] <= '9'
    ensures !StartsWith(s, "0x")
  {
    if |s| >= 2 {
      assert s[..2][0] == s[0] && s[..2][1] == s[1];
    }
  }

  /** `int(str(n)) == n`. */
  lemma DecimalRoundTrip(n: int)
    ensures ParseDecimal(IntToString(n)) == Ok(n)
  {
    var m: nat := if n < 0 then -n else n;
    DecimalDigitsShape(m);
    DigitsRead(NatToDigits(m, 10));
  }

  /** Decimal digits, with or without a leading `-`, read back as their
      value, negated after the `-`. */
  lemma DigitsRead(ds: string)
    requires IsDigits(ds, 10) && forall k :: 0 <= k < |ds| ==> '0' <= ds[k] <= '9'
    ensures ParseDecimal(ds) == Ok(DigitsValue(ds, 10))
    ensures ParseDecimal("-" + ds) == Ok(-(DigitsValue(ds, 10) as int))
  {
    var s := "-" + ds;
    SignSplit(ds);
    DigitsNoSeparator("-", ds);
    DigitsNoSeparator("", ds);
    assert s[|s| - 1] == ds[|ds| - 1];
    StripUnpadded(ds);
    StripUnpadded(s);
    UnsignedDecimalOf(ds);
    NegatedDecimalOf(ds);
  }

  /** Digits without a sign read as their value. */
  lemma UnsignedDecimalOf(ds: string)
    requires IsDigits(ds, 10) && forall k :: 0 <= k < |ds| ==> '0' <= ds[k] <= '9'
    ensures SignedDecimal(ds) == Some(DigitsValue(ds, 10) as int)
  {
    assert ds[0] != '-' && ds[0] != '+';
  }

  /** Digits after a `-` read as their value negated. */
  lemma NegatedDecimalOf(ds: string)
    requires IsDigits(ds, 10)
    ensures SignedDecimal("-" + ds) == Some(-(DigitsValue(ds, 10) as int))
  {
    SignSplit(ds);
  }

  /** A prefix without separators followed by digits has none. */
  lemma DigitsNoSeparator(prefix: string, ds: string)
    requires NoSeparator(prefix) && forall k :: 0 <= k < |ds| ==> IsHexDigit(ds[k])
    ensures NoSeparator(prefix + ds)
  {
    NoSeparatorConcat(prefix, ds);
  }

  /** Where the sign ends and the digits start; plain sequence facts. */
  lemma SignSplit(ds: string)
    ensures ("-" + ds)[0] == '-' && ("-" + ds)[1..] == ds
  {
    assert ("-" + ds)[1..] == ds;
  }

  /** The rendering of an integer is a `-` or a digit, followed by digits;
      it has no whitespace to strip. */
  lemma IntToStringUnpadded(n: int)
    ensures var s := IntToString(n);
      Strip(s) == s && forall k :: 0 < k < |s| ==> '0' <= s[k] <= '9'
    ensures '0' <= IntToString(n)[0] <= '9' || IntToString(n)[0] == '-'
  {
    var m: nat := if n < 0 then -n else n;
    var ds := NatToDigits(m, 10);
    var s := IntToString(n);
    DecimalDigitsShape(m);
    if n < 0 {
      assert s == "-" + ds;
      assert s[|s| - 1] == ds[|ds| - 1];
      assert forall k :: 0 < k < |s| ==> s[k] == ds[k - 1];
    } else {
      assert s == ds;
    }
    StripUnpadded(s);
  }

  /** Decimal digits are the characters `0` to `9`. */
  lemma DecimalDigitsShape(m: nat)
    ensures forall k :: 0 <= k < |NatToDigits(m, 10)| ==> '0' <= NatToDigits(m, 10)[k] <= '9'
  {
  }

  /** `0x` followed by `ds` starts with `0x` and has `ds` after it. */
  lemma HexPrefix(ds: string)
    ensures StartsWith("0x" + ds, "0x") && ("0x" + ds)[2..] == ds
  {
    var s := "0x" + ds;
    assert s[..2] == "0x";
  }

  /** Rendering a natural number in lower-case hexadecimal behind `0x` and
      reading it back with `int(..., 16)` gives the number. */
  lemma HexRoundTrip(n: nat)
    ensures ParseQuantity("0x" + NatToDigits(n, 16)) == Ok(n)
  {
    var ds := NatToDigits(n, 16);
    HexPrefix(ds);
    HexDigitsRead(ds);
  }

  /** Hexadecimal digits behind `0x` read back as their value. */
  lemma HexDigitsRead(ds: string)
    requires IsDigits(ds, 16)
    ensures ParseHex("0x" + ds) == Ok(DigitsValue(ds, 16))
  {
    HexPrefix(ds);
    DigitsNoSeparator("0x", ds);
    SpaceIsNotLiteral(ds[|ds| - 1]);
    assert TrailingSpaces(ds) == 0;
    assert ds[..|ds| - 0] == ds;
  }
}
