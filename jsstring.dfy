/** The JavaScript string built-ins the inventory server relies on, stated over
    `seq<char>`: `startsWith`, `indexOf`/`includes`, `replace` with a string
    pattern, `Number.prototype.toString` on non-negative integers, the global
    `parseInt` (no radix argument) and `match(/\d+/)`. */
module JsString {
  import opened Optional

  /** `s.startsWith(prefix)` */
  predicate StartsWith(s: string, prefix: string) {
    |prefix| <= |s| && s[..|prefix|] == prefix
  }

  /** `pat` occurs in `s` at index `i`. */
  predicate OccursAt(s: string, pat: string, i: nat) {
    i + |pat| <= |s| && s[i..i + |pat|] == pat
  }

  /** The first occurrence of `pat` in `s` at an index no smaller than `i`. */
  function IndexFrom(s: string, pat: string, i: nat): (r: Option<nat>)
    ensures r.Some? ==> i <= r.value && OccursAt(s, pat, r.value)
    ensures r.Some? ==> forall j :: i <= j < r.value ==> !OccursAt(s, pat, j)
    ensures r.None? ==> forall j :: i <= j ==> !OccursAt(s, pat, j)
    decreases |s| - i
  {
    if OccursAt(s, pat, i) then Some(i)
    else if i >= |s| then None
    else IndexFrom(s, pat, i + 1)
  }

  /** `s.indexOf(pat)`, with `None` for -1. */
  function IndexOf(s: string, pat: string): Option<nat> {
    IndexFrom(s, pat, 0)
  }

  /** `s.includes(pat)` */
  function Includes(s: string, pat: string): (b: bool)
    ensures b <==> exists j :: OccursAt(s, pat, j)
  {
    IndexOf(s, pat).Some?
  }

  /** `s.replace(pat, rep)` with a string pattern: only the first occurrence is
      replaced (the replacement text is taken literally, as it holds no `$`). */
  function ReplaceFirst(s: string, pat: string, rep: string): (r: string)
    ensures !Includes(s, pat) ==> r == s
    ensures Includes(s, pat) ==>
      exists i: nat :: OccursAt(s, pat, i) && (forall j :: 0 <= j < i ==> !OccursAt(s, pat, j))
                  && r == s[..i] + rep + s[i + |pat|..]
  {
    match IndexOf(s, pat)
    case None => s
    case Some(i) => s[..i] + rep + s[i + |pat|..]
  }

  // ---------------------------------------------------------------- digits

  predicate IsDecDigit(c: char) { '0' <= c <= '9' }

  /** The value of `c` as a digit in any radix up to 36, or 36 when `c` is not
      a digit in any radix. */
  function DigitValue(c: char): (v: nat)
    ensures v <= 36
    ensures IsDecDigit(c) <==> v < 10
  {
    if '0' <= c <= '9' then (c - '0') as nat
    else if 'a' <= c <= 'z' then (c - 'a') as nat + 10
    else if 'A' <= c <= 'Z' then (c - 'A') as nat + 10
    else 36
  }

  function DigitChar(d: nat): (c: char)
    requires d < 10
    ensures IsDecDigit(c) && DigitValue(c) == d
  {
    "0123456789"[d]
  }

  predicate AllDecDigits(s: string) {
    forall i :: 0 <= i < |s| ==> IsDecDigit(s[i])
  }

  /** `n.toString()` for a non-negative integer: its shortest decimal rendering. */
  function NatToString(n: nat): (r: string)
    ensures |r| >= 1 && AllDecDigits(r)
    decreases n
  {
    if n < 10 then [DigitChar(n)] else NatToString(n / 10) + [DigitChar(n % 10)]
  }

  /** The value of the digit string `d` read in `radix`, most significant first. */
  function DigitsValue(d: string, radix: nat): nat {
    if |d| == 0 then 0
    else DigitsValue(d[..|d| - 1], radix) * radix + DigitValue(d[|d| - 1])
  }

  /** The longest prefix of `s` made of digits valid in `radix`. */
  function DigitPrefix(s: string, radix: nat): (r: string)
    ensures |r| <= |s| && r == s[..|r|]
    ensures forall i :: 0 <= i < |r| ==> DigitValue(r[i]) < radix
    ensures |r| < |s| ==> DigitValue(s[|r|]) >= radix
  {
    if |s| > 0 && DigitValue(s[0]) < radix then [s[0]] + DigitPrefix(s[1..], radix) else ""
  }

  // ---------------------------------------------------------------- parseInt

  /** The characters `parseInt` skips at the front: ECMAScript WhiteSpace and
      LineTerminator (tab, vertical tab, form feed, space, no-break space, byte
      order mark, the Unicode space separators, LF, CR, LS, PS). */
  predicate IsJsSpace(c: char) {
    c == ' ' || c == '\t' || c == '\n' || c == '\r' || c == '\U{B}' || c == '\U{C}'
    || c == '\U{A0}' || c == '\U{FEFF}' || c == '\U{1680}' || ('\U{2000}' <= c <= '\U{200A}')
    || c == '\U{2028}' || c == '\U{2029}' || c == '\U{202F}' || c == '\U{205F}' || c == '\U{3000}'
  }

  function TrimStart(s: string): (r: string)
    ensures |r| <= |s| && r == s[|s| - |r|..]
    ensures |r| > 0 ==> !IsJsSpace(r[0])
  {
    if |s| > 0 && IsJsSpace(s[0]) then TrimStart(s[1..]) else s
  }

  /** The global `parseInt(s)` with no radix argument; `None` stands for `NaN`.
      Leading white space is skipped, then one optional sign, then a `0x` or
      `0X` prefix selects radix 16 (otherwise radix 10), and the longest run of
      digits valid in that radix is read; no digits at all gives `NaN`. */
  function ParseInt(s: string): (r: Option<int>)
    ensures (forall i :: 0 <= i < |s| ==> !IsDecDigit(s[i])) ==> r.None?
    ensures |s| > 0 && IsDecDigit(s[0]) && r.Some? ==> r.value >= 0
  {
    var t := TrimStart(s);
    assert |t| > 0 ==> t[0] == s[|s| - |t|];
    assert |t| > 1 ==> t[1..][0] == s[|s| - |t| + 1];
    if |t| > 0 && t[0] == '-' then
      match ParseMagnitude(t[1..])
      case None => None
      case Some(v) => Some(-v)
    else if |t| > 0 && t[0] == '+' then ParseMagnitude(t[1..])
    else ParseMagnitude(t)
  }

  /** The unsigned part of `parseInt`: hexadecimal after `0x`/`0X`, else decimal. */
  function ParseMagnitude(u: string): (r: Option<int>)
    ensures r.Some? ==> r.value >= 0
    ensures (|u| == 0 || !IsDecDigit(u[0])) ==> r.None?
  {
    if |u| >= 2 && u[0] == '0' && (u[1] == 'x' || u[1] == 'X') then ParseDigits(u[2..], 16)
    else ParseDigits(u, 10)
  }

  /** The value of the longest `radix` digit prefix of `u`; `None` when it is empty. */
  function ParseDigits(u: string, radix: nat): Option<int> {
    var d := DigitPrefix(u, radix);
    if d == "" then None else Some(DigitsValue(d, radix))
  }

  /** `v` occurs in `s` at `i`, no decimal digit comes before it, and no
      decimal digit follows it. */
  predicate LeftmostRunAt(s: string, v: string, i: nat) {
    OccursAt(s, v, i) && (forall k :: 0 <= k < i ==> !IsDecDigit(s[k]))
    && (i + |v| < |s| ==> !IsDecDigit(s[i + |v|]))
  }

  /** `s.match(/\d+/)`: the leftmost maximal run of decimal digits in `s`. */
  function FirstDigitRun(s: string): (r: Option<string>)
    ensures r.Some? ==> |r.value| >= 1 && AllDecDigits(r.value) && exists i: nat :: LeftmostRunAt(s, r.value, i)
    ensures r.None? <==> forall i :: 0 <= i < |s| ==> !IsDecDigit(s[i])
  {
    if |s| == 0 then None
    else if IsDecDigit(s[0]) then
      var d := DigitPrefix(s, 10);
      assert LeftmostRunAt(s, d, 0);
      Some(d)
    else
      var t := FirstDigitRun(s[1..]);
      if t.Some? then RunAfterNonDigit(s, t.value); t else t
  }

  /** A leftmost run of the tail is the leftmost run of a text whose first
      character is not a digit. */
  lemma RunAfterNonDigit(s: string, v: string)
    requires |s| > 0 && !IsDecDigit(s[0]) && exists i: nat :: LeftmostRunAt(s[1..], v, i)
    ensures exists i: nat :: LeftmostRunAt(s, v, i)
  {
    var i: nat :| LeftmostRunAt(s[1..], v, i);
    assert s[i + 1..i + 1 + |v|] == s[1..][i..i + |v|];
    forall k | 0 <= k < i + 1 ensures !IsDecDigit(s[k]) {
      if k > 0 {
        assert s[k] == s[1..][k - 1];
      }
    }
    if i + 1 + |v| < |s| {
      assert s[i + 1 + |v|] == s[1..][i + |v|];
    }
    assert LeftmostRunAt(s, v, i + 1);
  }

  // ---------------------------------------------------------------- lemmas

  /** Reading back a decimal rendering gives the number. */
  lemma {:induction false} NatToStringValue(n: nat)
    ensures DigitsValue(NatToString(n), 10) == n
    decreases n
  {
    var r := NatToString(n);
    if n >= 10 {
      NatToStringValue(n / 10);
      assert r[..|r| - 1] == NatToString(n / 10);
    }
  }

  /** Distinct numbers have distinct decimal renderings. */
  lemma NatToStringInjective(a: nat, b: nat)
    requires NatToString(a) == NatToString(b)
    ensures a == b
  {
    NatToStringValue(a);
    NatToStringValue(b);
  }

  /** A rendering starts with `0` only when it is `"0"`. */
  lemma {:induction false} NatToStringLeadingDigit(n: nat)
    ensures (NatToString(n)[0] == '0') <==> n == 0
    decreases n
  {
    if n >= 10 {
      NatToStringLeadingDigit(n / 10);
      assert NatToString(n)[0] == NatToString(n / 10)[0];
    } else {
      assert NatToString(n)[0] == DigitChar(n);
    }
  }

  /** Over a string of decimal digits, the decimal digit prefix is all of it, and
      it stops at the first character that is not a decimal digit. */
  lemma {:induction false} DigitPrefixOfDigits(d: string, rest: string)
    requires AllDecDigits(d)
    requires |rest| > 0 ==> !IsDecDigit(rest[0])
    ensures DigitPrefix(d + rest, 10) == d
    decreases |d|
  {
    if |d| > 0 {
      assert (d + rest)[1..] == d[1..] + rest;
      DigitPrefixOfDigits(d[1..], rest);
      assert [d[0]] + d[1..] == d;
    } else {
      assert d + rest == rest;
    }
  }

  /** On a string that starts with a decimal digit and not with `0x`,
      `parseInt` reads the decimal digit prefix. */
  lemma ParseIntDecimal(s: string)
    requires |s| > 0 && IsDecDigit(s[0])
    requires !(|s| >= 2 && s[0] == '0' && (s[1] == 'x' || s[1] == 'X'))
    ensures ParseInt(s) == Some(DigitsValue(DigitPrefix(s, 10), 10))
  {
    assert !IsJsSpace(s[0]);
    assert TrimStart(s) == s;
    assert DigitValue(s[0]) < 10;
    assert |DigitPrefix(s, 10)| > 0;
  }

  /** `parseInt` reads back a decimal rendering followed by text that does not
      continue it (no further digit, and no `x` right after a lone `0`). */
  lemma ParseIntOfRendering(n: nat, rest: string)
    requires |rest| > 0 ==> !IsDecDigit(rest[0]) && (n == 0 ==> rest[0] != 'x' && rest[0] != 'X')
    ensures ParseInt(NatToString(n) + rest) == Some(n)
  {
    var d := NatToString(n);
    var s := d + rest;
    assert s[0] == d[0];
    NatToStringLeadingDigit(n);
    if n == 0 {
      assert d == "0";
      assert |s| >= 2 ==> s[1] == rest[0];
    }
    ParseIntDecimal(s);
    DigitPrefixOfDigits(d, rest);
    NatToStringValue(n);
  }

  /** `s.match(/\d+/)` finds a decimal rendering placed after a non-digit text. */
  lemma {:induction false} FirstDigitRunAfter(pre: string, n: nat, rest: string)
    requires forall i :: 0 <= i < |pre| ==> !IsDecDigit(pre[i])
    requires |rest| > 0 ==> !IsDecDigit(rest[0])
    ensures FirstDigitRun(pre + NatToString(n) + rest) == Some(NatToString(n))
    decreases |pre|
  {
    var s := pre + NatToString(n) + rest;
    if |pre| == 0 {
      assert s == NatToString(n) + rest;
      DigitPrefixOfDigits(NatToString(n), rest);
    } else {
      assert s[1..] == pre[1..] + NatToString(n) + rest;
      FirstDigitRunAfter(pre[1..], n, rest);
    }
  }
}
