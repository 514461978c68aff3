/**
 * Hand-written counterparts of the Python string built-ins the bot uses:
 * `lower()`, `capitalize()`, `strip()`, `split()`, `in`, `replace(w, '')`,
 * `' '.join(...)`, and the `int(...)` / `float(...)` conversions of decimal
 * text. Only ASCII and the Cyrillic block are case-mapped; see README.
 */
module Text {
  import opened Wrappers

  /**
   * The whitespace characters of `str.isspace()`, which `split()`, `strip()`,
   * `int()`, `float()` and a `\s` of a `str` pattern all use: tab to carriage
   * return, the four separators U+001C..U+001F, space, U+0085, U+00A0,
   * U+1680, U+2000..U+200A, U+2028, U+2029, U+202F, U+205F and U+3000.
   */
  predicate IsSpace(c: char) {
    var k := c as int;
    || 0x09 <= k <= 0x0D || 0x1C <= k <= 0x20 || k == 0x85 || k == 0xA0 || k == 0x1680
    || 0x2000 <= k <= 0x200A || k == 0x2028 || k == 0x2029 || k == 0x202F || k == 0x205F || k == 0x3000
  }

  predicate IsDigit(c: char) {
    '0' <= c <= '9'
  }

  predicate AllDigits(s: string) {
    forall i | 0 <= i < |s| :: IsDigit(s[i])
  }

  predicate NoSpace(s: string) {
    forall i | 0 <= i < |s| :: !IsSpace(s[i])
  }

  // ---------------------------------------------------------------------------
  // Case mapping

  /** `c.lower()` for ASCII letters and the Cyrillic letters U+0400..U+042F. */
  function LowerChar(c: char): char {
    if 'A' <= c <= 'Z' then (c as int + 32) as char
    else if 0x410 <= c as int <= 0x42F then (c as int + 32) as char
    else if 0x400 <= c as int <= 0x40F then (c as int + 80) as char
    else c
  }

  /** `c.upper()` for ASCII letters and the Cyrillic letters U+0430..U+045F. */
  function UpperChar(c: char): char {
    if 'a' <= c <= 'z' then (c as int - 32) as char
    else if 0x430 <= c as int <= 0x44F then (c as int - 32) as char
    else if 0x450 <= c as int <= 0x45F then (c as int - 80) as char
    else c
  }

  /** `s.lower()` */
  function Lower(s: string): string {
    seq(|s|, i requires 0 <= i < |s| => LowerChar(s[i]))
  }

  /** A lowered character lowers to itself. */
  lemma LowerCharIdempotent(c: char)
    ensures LowerChar(LowerChar(c)) == LowerChar(c)
  {
  }

  /** Lower-casing twice changes nothing more. */
  lemma LowerIdempotent(s: string)
    ensures Lower(Lower(s)) == Lower(s)
  {
    forall i | 0 <= i < |s|
      ensures Lower(Lower(s))[i] == Lower(s)[i]
    {
      LowerCharIdempotent(s[i]);
    }
  }

  /** `s.capitalize()`: first character upper case, the rest lower case. */
  function Capitalize(s: string): string {
    if |s| == 0 then "" else [UpperChar(s[0])] + Lower(s[1..])
  }

  // ---------------------------------------------------------------------------
  // Substrings

  predicate StartsWith(s: string, prefix: string) {
    |prefix| <= |s| && s[..|prefix|] == prefix
  }

  /** Python's `sub in s`. */
  predicate Contains(s: string, sub: string)
    decreases |s|
  {
    StartsWith(s, sub) || (|s| > 0 && Contains(s[1..], sub))
  }

  /** An occurrence at any position makes `sub in s` true. */
  lemma {:induction false} ContainsAt(s: string, sub: string, i: nat)
    requires i + |sub| <= |s| && s[i..i + |sub|] == sub
    ensures Contains(s, sub)
    decreases i
  {
    if i == 0 {
      assert s[..|sub|] == sub;
    } else {
      assert s[1..][i - 1..i - 1 + |sub|] == s[i..i + |sub|];
      ContainsAt(s[1..], sub, i - 1);
    }
  }

  /** `s.replace(w, '')`: drop every non-overlapping occurrence of `w`, left to right. */
  function RemoveAll(s: string, w: string): string
    requires |w| > 0
    decreases |s|
  {
    if |s| == 0 then ""
    else if StartsWith(s, w) then RemoveAll(s[|w|..], w)
    else [s[0]] + RemoveAll(s[1..], w)
  }

  /** `s.replace(a, b)` for single characters. */
  function ReplaceChar(s: string, a: char, b: char): string {
    seq(|s|, i requires 0 <= i < |s| => if s[i] == a then b else s[i])
  }

  // ---------------------------------------------------------------------------
  // Whitespace: strip and split

  function TrimLeft(s: string): string
    decreases |s|
  {
    if |s| > 0 && IsSpace(s[0]) then TrimLeft(s[1..]) else s
  }

  function TrimRight(s: string): string
    decreases |s|
  {
    if |s| > 0 && IsSpace(s[|s| - 1]) then TrimRight(s[..|s| - 1]) else s
  }

  lemma {:induction false} TrimRightKeepsFirst(s: string)
    requires |s| > 0 && !IsSpace(s[0])
    ensures |TrimRight(s)| > 0 && TrimRight(s)[0] == s[0]
    decreases |s|
  {
    if IsSpace(s[|s| - 1]) { TrimRightKeepsFirst(s[..|s| - 1]); }
  }

  /** A text that starts with a non-space character keeps it first after `strip()`. */
  lemma StripKeepsFirst(s: string)
    requires |s| > 0 && !IsSpace(s[0])
    ensures |Strip(s)| > 0 && Strip(s)[0] == s[0]
  {
    TrimRightKeepsFirst(s);
  }

  /** `s.strip()` */
  function Strip(s: string): string {
    TrimRight(TrimLeft(s))
  }

  /** `strip()` leaves nothing that `strip()` could still remove. */
  lemma {:induction false} StripHasNoOuterSpace(s: string)
    ensures var t := Strip(s); |t| > 0 ==> !IsSpace(t[0]) && !IsSpace(t[|t| - 1])
  {
    TrimLeftNoLeadingSpace(s);
    TrimRightKeepsStart(TrimLeft(s));
    TrimRightNoTrailingSpace(TrimLeft(s));
  }

  lemma {:induction false} TrimLeftNoLeadingSpace(s: string)
    ensures var t := TrimLeft(s); |t| > 0 ==> !IsSpace(t[0])
    decreases |s|
  {
    if |s| > 0 && IsSpace(s[0]) { TrimLeftNoLeadingSpace(s[1..]); }
  }

  lemma {:induction false} TrimRightNoTrailingSpace(s: string)
    ensures var t := TrimRight(s); |t| > 0 ==> !IsSpace(t[|t| - 1])
    decreases |s|
  {
    if |s| > 0 && IsSpace(s[|s| - 1]) { TrimRightNoTrailingSpace(s[..|s| - 1]); }
  }

  /** `TrimRight` only removes characters from the end. */
  lemma {:induction false} TrimRightKeepsStart(s: string)
    ensures var t := TrimRight(s); |t| <= |s| && t == s[..|t|]
    decreases |s|
  {
    if |s| > 0 && IsSpace(s[|s| - 1]) { TrimRightKeepsStart(s[..|s| - 1]); }
  }

  /** Length of the run of non-whitespace characters that starts `s`. */
  function WordLen(s: string): (n: nat)
    ensures n <= |s|
    ensures |s| > 0 && !IsSpace(s[0]) ==> n >= 1
    ensures NoSpace(s[..n])
    decreases |s|
  {
    if |s| == 0 || IsSpace(s[0]) then 0
    else
      var n := 1 + WordLen(s[1..]);
      assert s[..n] == [s[0]] + s[1..][..n - 1];
      n
  }

  /** `s.split()`: the maximal runs of non-whitespace characters, in order. */
  function Words(s: string): seq<string>
    decreases |s|
  {
    if |s| == 0 then []
    else if IsSpace(s[0]) then Words(s[1..])
    else
      var n := WordLen(s);
      [s[..n]] + Words(s[n..])
  }

  /** Every word of `s.split()` is a non-empty, whitespace-free substring of `s`. */
  lemma {:induction false} WordsAreSubstrings(s: string, w: string)
    requires w in Words(s)
    ensures |w| > 0 && NoSpace(w) && Contains(s, w)
    decreases |s|
  {
    if IsSpace(s[0]) {
      WordsAreSubstrings(s[1..], w);
      ContainsTail(s, w);
    } else {
      var n := WordLen(s);
      if w == s[..n] {
        ContainsAt(s, w, 0);
      } else {
        WordsAreSubstrings(s[n..], w);
        ContainsSuffix(s, n, w);
      }
    }
  }

  lemma {:induction false} ContainsTail(s: string, w: string)
    requires |s| > 0 && Contains(s[1..], w)
    ensures Contains(s, w)
  {
  }

  lemma {:induction false} ContainsSuffix(s: string, n: nat, w: string)
    requires n <= |s| && Contains(s[n..], w)
    ensures Contains(s, w)
    decreases n
  {
    if n > 0 {
      assert s[1..][n - 1..] == s[n..];
      ContainsSuffix(s[1..], n - 1, w);
    }
  }

  /** A non-empty string without whitespace splits into itself alone. */
  lemma {:induction false} SingleWord(k: string)
    requires |k| > 0 && NoSpace(k)
    ensures Words(k) == [k]
  {
    WordLenOfNoSpace(k);
    assert !IsSpace(k[0]);
    assert k[..|k|] == k && k[|k|..] == [];
    assert Words(k) == [k[..|k|]] + Words(k[|k|..]);
  }

  lemma {:induction false} WordLenOfNoSpace(k: string)
    requires NoSpace(k)
    ensures WordLen(k) == |k|
    decreases |k|
  {
    if |k| > 0 { WordLenOfNoSpace(k[1..]); }
  }

  /** `' '.join(parts)` */
  function JoinSpace(parts: seq<string>): string {
    if |parts| == 0 then ""
    else if |parts| == 1 then parts[0]
    else parts[0] + " " + JoinSpace(parts[1..])
  }

  // ---------------------------------------------------------------------------
  // Decimal numerals

  function DigitValue(c: char): nat
    requires IsDigit(c)
  {
    c as int - '0' as int
  }

  /** The value of a string of decimal digits ("" reads as 0). */
  function DigitsValue(s: string): nat
    requires AllDigits(s)
  {
    if |s| == 0 then 0 else DigitsValue(s[..|s| - 1]) * 10 + DigitValue(s[|s| - 1])
  }

  function Pow10(n: nat): (p: nat)
    ensures p >= 1
  {
    if n == 0 then 1 else 10 * Pow10(n - 1)
  }

  /** End of the run of digits that starts at `i`. */
  function DigitRun(s: string, i: nat): (r: nat)
    requires i <= |s|
    ensures i <= r <= |s|
    ensures AllDigits(s[i..r])
    ensures r < |s| ==> !IsDigit(s[r])
    decreases |s| - i
  {
    if i < |s| && IsDigit(s[i]) then
      var r := DigitRun(s, i + 1);
      assert s[i..r] == [s[i]] + s[i + 1..r];
      r
    else i
  }

  /** End of the greedy match of `\d+(?:\.\d+)?` at `i`. */
  function NumberEnd(s: string, i: nat): (e: nat)
    requires i < |s| && IsDigit(s[i])
    ensures i < e <= |s|
  {
    var k := DigitRun(s, i);
    if k + 1 < |s| && s[k] == '.' && IsDigit(s[k + 1]) then DigitRun(s, k + 1) else k
  }

  /** `float(...)` of the text matched by `\d+(?:\.\d+)?` at `i`. */
  function NumberValue(s: string, i: nat): (v: real)
    requires i < |s| && IsDigit(s[i])
    ensures v >= 0.0
  {
    var k := DigitRun(s, i);
    if k + 1 < |s| && s[k] == '.' && IsDigit(s[k + 1]) then
      var e := DigitRun(s, k + 1);
      DigitsValue(s[i..k]) as real + DigitsValue(s[k + 1..e]) as real / Pow10(e - k - 1) as real
    else DigitsValue(s[i..k]) as real
  }

  /** Index of the first digit at or after `i`, or `|s|` when there is none. */
  function FirstDigit(s: string, i: nat): (r: nat)
    requires i <= |s|
    ensures i <= r <= |s|
    ensures r < |s| ==> IsDigit(s[r])
    ensures forall j | i <= j < r :: !IsDigit(s[j])
    decreases |s| - i
  {
    if i == |s| || IsDigit(s[i]) then i else FirstDigit(s, i + 1)
  }

  /** Splits an optional leading sign off `t`: (is negative, rest). */
  function SplitSign(t: string): (bool, string) {
    if |t| > 0 && (t[0] == '-' || t[0] == '+') then (t[0] == '-', t[1..]) else (false, t)
  }

  /** Python's `int(text)` for text of the form: spaces, optional sign, digits, spaces. */
  function ParseInt(text: string): Option<int> {
    var (negative, body) := SplitSign(Strip(text));
    if |body| > 0 && AllDigits(body) then
      Some(if negative then -(DigitsValue(body) as int) else DigitsValue(body) as int)
    else None
  }

  /** An unsigned decimal `ddd`, `ddd.`, `.ddd` or `ddd.ddd`. */
  function ParseUnsignedDecimal(b: string): Option<real> {
    var k := DigitRun(b, 0);
    if k == |b| then
      if k > 0 then Some(DigitsValue(b) as real) else None
    else if b[k] == '.' && AllDigits(b[k + 1..]) && (k > 0 || k + 1 < |b|) then
      Some(DigitsValue(b[..k]) as real + DigitsValue(b[k + 1..]) as real / Pow10(|b| - k - 1) as real)
    else None
  }

  /** Python's `float(text)` for text of the form: spaces, optional sign, decimal, spaces. */
  function ParseFloat(text: string): Option<real> {
    var (negative, body) := SplitSign(Strip(text));
    match ParseUnsignedDecimal(body)
    case None => None
    case Some(v) => Some(if negative then -v else v)
  }

  /** Decimal text of a natural number, most significant digit first. */
  function NatToDecimal(n: nat): (s: string)
    ensures |s| > 0 && AllDigits(s)
  {
    var d := ['0' + (n % 10) as char];
    if n < 10 then d else NatToDecimal(n / 10) + d
  }

  /** `str(n)` for an integer. */
  function IntToDecimal(n: int): string {
    if n < 0 then "-" + NatToDecimal(-n) else NatToDecimal(n)
  }

  lemma {:induction false} DigitsValueOfDecimal(n: nat)
    ensures DigitsValue(NatToDecimal(n)) == n
  {
    var s := NatToDecimal(n);
    if n >= 10 {
      DigitsValueOfDecimal(n / 10);
      assert s[..|s| - 1] == NatToDecimal(n / 10);
    }
  }

  /** Decimal text has no outer whitespace, and its sign splits off as `n < 0` and the digits of `|n|`. */
  lemma SignOfDecimal(n: int)
    ensures Strip(IntToDecimal(n)) == IntToDecimal(n)
    ensures SplitSign(IntToDecimal(n)) == (n < 0, NatToDecimal(if n < 0 then -n else n))
  {
    var s := IntToDecimal(n);
    assert !IsSpace(s[0]) && !IsSpace(s[|s| - 1]);
    assert Strip(s) == s;
  }

  /** `int(str(n)) == n`: the integer scanner inverts decimal printing. */
  lemma {:induction false} ParseIntOfDecimal(n: int)
    ensures ParseInt(IntToDecimal(n)) == Some(n)
  {
    SignOfDecimal(n);
    DigitsValueOfDecimal(if n < 0 then -n else n);
  }

  lemma {:induction false} DigitRunOfDigits(b: string, i: nat)
    requires i <= |b| && AllDigits(b)
    ensures DigitRun(b, i) == |b|
    decreases |b| - i
  {
    if i < |b| { DigitRunOfDigits(b, i + 1); }
  }

  /** A non-empty run of digits reads as its integer value. */
  lemma UnsignedDecimalOfDigits(b: string)
    requires |b| > 0 && AllDigits(b)
    ensures ParseUnsignedDecimal(b) == Some(DigitsValue(b) as real)
  {
    DigitRunOfDigits(b, 0);
  }

  lemma {:induction false} DigitRunStops(s: string, i: nat, k: nat)
    requires i <= k <= |s| && AllDigits(s[i..k]) && (k < |s| ==> !IsDigit(s[k]))
    ensures DigitRun(s, i) == k
    decreases k - i
  {
    if i < k {
      assert IsDigit(s[i..k][0]);
      assert s[i + 1..k] == s[i..k][1..];
      DigitRunStops(s, i + 1, k);
    }
  }

  /** `float("a.b")` for digit strings `a` and `b`, neither empty: `a + b / 10^|b|`. */
  lemma {:induction false} ParseFloatOfPointDecimal(a: string, b: string)
    requires |a| > 0 && AllDigits(a) && |b| > 0 && AllDigits(b)
    ensures ParseFloat(a + "." + b) == Some(DigitsValue(a) as real + DigitsValue(b) as real / Pow10(|b|) as real)
  {
    var s := a + "." + b;
    assert s[0] == a[0] && s[|s| - 1] == b[|b| - 1];
    assert Strip(s) == s;
    assert SplitSign(s) == (false, s);
    assert s[0..|a|] == a && s[|a|] == '.';
    DigitRunStops(s, 0, |a|);
    assert s[..|a|] == a && s[|a| + 1..] == b;
  }

  /** `float(str(n)) == n`: the float scanner reads integer text exactly. */
  lemma {:induction false} ParseFloatOfDecimal(n: int)
    ensures ParseFloat(IntToDecimal(n)) == Some(n as real)
  {
    var digits := NatToDecimal(if n < 0 then -n else n);
    SignOfDecimal(n);
    DigitsValueOfDecimal(if n < 0 then -n else n);
    UnsignedDecimalOfDigits(digits);
  }
}
