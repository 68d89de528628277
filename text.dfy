/** The JavaScript string operations the pages rely on, on strings as `seq<char>`:
    integer printing (`Number.prototype.toString`), `parseInt` with no radix,
    `padStart`, `split` on one character, ASCII `toUpperCase` and `startsWith`. */
module Text {
  import opened Wrappers

  predicate IsDigit(c: char) { '0' <= c <= '9' }

  predicate AllDigits(s: string) { forall i :: 0 <= i < |s| ==> IsDigit(s[i]) }

  function DigitValue(c: char): nat
    requires IsDigit(c)
  {
    (c as int) - ('0' as int)
  }

  function DigitChar(d: nat): (c: char)
    requires d < 10
    ensures IsDigit(c) && DigitValue(c) == d
  {
    (('0' as int) + d) as char
  }

  /** The number a string of decimal digits denotes (most significant digit first). */
  function DecimalValue(s: string): nat
    requires AllDigits(s)
    decreases |s|
  {
    if |s| == 0 then 0 else DecimalValue(s[..|s| - 1]) * 10 + DigitValue(s[|s| - 1])
  }

  /** Decimal text of a natural number: digits only, never empty, no leading zero. */
  function NatToString(n: nat): (s: string)
    ensures |s| >= 1 && AllDigits(s)
    ensures s[0] == '0' ==> n == 0 && s == "0"
  {
    if n < 10 then [DigitChar(n)] else NatToString(n / 10) + [DigitChar(n % 10)]
  }

  lemma {:induction false} NatToStringValue(n: nat)
    ensures DecimalValue(NatToString(n)) == n
  {
    if n >= 10 {
      NatToStringValue(n / 10);
      var s := NatToString(n);
      assert s[..|s| - 1] == NatToString(n / 10);
    }
  }

  /** Integer text as JavaScript prints an integral number: a '-' for negatives, then the digits. */
  function IntToString(i: int): (s: string)
    ensures |s| >= 1 && (s[0] == '-') == (i < 0)
    ensures i >= 0 ==> AllDigits(s)
    ensures i < 0 ==> |s| >= 2 && AllDigits(s[1..])
  {
    if i < 0 then "-" + NatToString(-i) else NatToString(i)
  }

  /** JavaScript's `%`: the remainder takes the sign of the dividend. */
  function JsRem(a: int, b: int): (r: int)
    requires b > 0
    ensures a >= 0 ==> r == a % b
    ensures a < 0 ==> -b < r <= 0 && -r == (-a) % b
  {
    if a >= 0 then a % b else -((-a) % b)
  }

  /** The white space `parseInt` skips before the number. */
  predicate IsJsSpace(c: char) {
    || c == ' ' || c == '\t' || c == '\n' || c == '\r' || c == '\U{B}' || c == '\U{C}'
    || c == '\U{A0}' || c == '\U{FEFF}' || c == '\U{2028}' || c == '\U{2029}'
    || c == '\U{1680}' || '\U{2000}' <= c <= '\U{200A}' || c == '\U{202F}' || c == '\U{205F}'
    || c == '\U{3000}'
  }

  function TrimStart(s: string): string {
    if |s| > 0 && IsJsSpace(s[0]) then TrimStart(s[1..]) else s
  }

  /** What `TrimStart` removes is white space, and only a prefix of it: what is left is a
      suffix that does not start with white space. */
  lemma {:induction false} TrimStartDrops(s: string)
    ensures var t := TrimStart(s);
      && |t| <= |s| && t == s[|s| - |t|..]
      && (|t| > 0 ==> !IsJsSpace(t[0]))
      && forall i :: 0 <= i < |s| - |t| ==> IsJsSpace(s[i])
    decreases |s|
  {
    if |s| > 0 && IsJsSpace(s[0]) {
      TrimStartDrops(s[1..]);
    }
  }

  /** The length of the longest all-digit prefix. */
  function LeadingDigits(u: string): (k: nat)
    ensures k <= |u| && AllDigits(u[..k])
    ensures k < |u| ==> !IsDigit(u[k])
  {
    if |u| == 0 || !IsDigit(u[0]) then 0
    else
      var k := 1 + LeadingDigits(u[1..]);
      assert u[..k] == [u[0]] + u[1..][..k - 1];
      k
  }

  predicate IsHexDigit(c: char) { IsDigit(c) || 'a' <= c <= 'f' || 'A' <= c <= 'F' }

  function HexValue(c: char): (v: nat)
    requires IsHexDigit(c)
    ensures v < 16
  {
    if IsDigit(c) then DigitValue(c)
    else if 'a' <= c <= 'f' then (c as int) - ('a' as int) + 10
    else (c as int) - ('A' as int) + 10
  }

  function HexNumber(s: string): nat
    requires forall i :: 0 <= i < |s| ==> IsHexDigit(s[i])
    decreases |s|
  {
    if |s| == 0 then 0 else HexNumber(s[..|s| - 1]) * 16 + HexValue(s[|s| - 1])
  }

  function LeadingHexDigits(u: string): (k: nat)
    ensures k <= |u| && forall i :: 0 <= i < k ==> IsHexDigit(u[i])
    ensures k < |u| ==> !IsHexDigit(u[k])
  {
    if |u| == 0 || !IsHexDigit(u[0]) then 0 else 1 + LeadingHexDigits(u[1..])
  }

  /** The unsigned part of `parseInt`: the longest run of digits (hexadecimal after a
      `0x`/`0X` prefix); `None` when there is no digit. */
  function ParseMagnitude(u: string): Option<nat> {
    if |u| >= 2 && u[0] == '0' && (u[1] == 'x' || u[1] == 'X') then
      var k := LeadingHexDigits(u[2..]);
      if k == 0 then None else Some(HexNumber(u[2..][..k]))
    else
      var k := LeadingDigits(u);
      if k == 0 then None else Some(DecimalValue(u[..k]))
  }

  /** JavaScript's `parseInt(s)` with no radix: skip leading white space, read an optional
      sign, then the magnitude, ignoring whatever follows it; `None` is NaN, the result when
      no digit is found. */
  function ParseInt(s: string): Option<int> {
    ParseSigned(TrimStart(s))
  }

  /** `parseInt` once the white space is skipped. */
  function ParseSigned(t: string): Option<int> {
    if |t| > 0 && t[0] == '-' then
      match ParseMagnitude(t[1..])
      case Some(m) => Some(-(m as int))
      case None => None
    else if |t| > 0 && t[0] == '+' then
      match ParseMagnitude(t[1..])
      case Some(m) => Some(m as int)
      case None => None
    else
      match ParseMagnitude(t)
      case Some(m) => Some(m as int)
      case None => None
  }

  lemma MagnitudeOfDigits(u: string)
    requires |u| >= 1 && AllDigits(u)
    ensures ParseMagnitude(u) == Some(DecimalValue(u))
  {
    AllDigitsLeading(u);
    assert u[..|u|] == u;
  }

  lemma AllDigitsLeading(u: string)
    requires AllDigits(u)
    ensures LeadingDigits(u) == |u|
  {
  }

  lemma TrimStartKeeps(s: string)
    requires |s| > 0 && !IsJsSpace(s[0])
    ensures TrimStart(s) == s
  {
  }

  lemma ParseNonNegative(n: nat)
    ensures ParseInt(NatToString(n)) == Some(n as int)
  {
    var d := NatToString(n);
    NatToStringValue(n);
    MagnitudeOfDigits(d);
    TrimStartKeeps(d);
  }

  lemma ParseNegative(n: nat)
    requires n > 0
    ensures ParseInt("-" + NatToString(n)) == Some(-(n as int))
  {
    var d := NatToString(n);
    var s := "-" + d;
    assert s[0] == '-' && s[1..] == d;
    NatToStringValue(n);
    MagnitudeOfDigits(d);
    assert ParseMagnitude(s[1..]) == Some(n);
    TrimStartKeeps(s);
  }

  /** `parseInt(String(i)) === i`: the text `IntToString` writes reads back as the same integer. */
  lemma {:induction false} ParseIntRoundTrip(i: int)
    ensures ParseInt(IntToString(i)) == Some(i)
  {
    if i < 0 {
      ParseNegative(-i);
    } else {
      ParseNonNegative(i);
    }
  }

  /** Leading white space is skipped up to the first other character. */
  lemma {:induction false} TrimStartSkips(lead: string, x: string)
    requires forall i :: 0 <= i < |lead| ==> IsJsSpace(lead[i])
    requires |x| > 0 && !IsJsSpace(x[0])
    ensures TrimStart(lead + x) == x
    decreases |lead|
  {
    if lead == [] {
      assert lead + x == x;
    } else {
      assert (lead + x)[1..] == lead[1..] + x;
      TrimStartSkips(lead[1..], x);
    }
  }

  /** The digit run stops at the first character that is not a digit. */
  lemma {:induction false} LeadingDigitsBefore(u: string, rest: string)
    requires AllDigits(u)
    requires rest == [] || !IsDigit(rest[0])
    ensures LeadingDigits(u + rest) == |u|
    decreases |u|
  {
    if u != [] {
      assert (u + rest)[1..] == u[1..] + rest;
      LeadingDigitsBefore(u[1..], rest);
    } else {
      assert u + rest == rest;
    }
  }

  /** The magnitude of a digit run followed by other text is the run's value. */
  lemma MagnitudeBefore(d: string, rest: string)
    requires |d| >= 1 && AllDigits(d) && (d[0] == '0' ==> d == "0")
    requires rest == [] || (!IsDigit(rest[0]) && rest[0] != 'x' && rest[0] != 'X')
    ensures ParseMagnitude(d + rest) == Some(DecimalValue(d))
  {
    var u := d + rest;
    LeadingDigitsBefore(d, rest);
    assert u[..|d|] == d;
    if |u| >= 2 && u[0] == '0' {
      assert u[1] == rest[0];
    }
  }

  /** `parseInt` reads the number written by `NatToString` whatever white space precedes it
      and whatever text follows it, as long as that text does not start with a digit or an
      `x` that would turn a lone "0" into a hexadecimal prefix. */
  lemma ParseNatWithin(lead: string, n: nat, rest: string)
    requires forall i :: 0 <= i < |lead| ==> IsJsSpace(lead[i])
    requires rest == [] || (!IsDigit(rest[0]) && rest[0] != 'x' && rest[0] != 'X')
    ensures ParseInt(lead + NatToString(n) + rest) == Some(n as int)
  {
    var d := NatToString(n);
    var u := d + rest;
    assert lead + d + rest == lead + u;
    assert u[0] == d[0];
    TrimStartSkips(lead, u);
    MagnitudeBefore(d, rest);
    NatToStringValue(n);
    assert ParseSigned(u) == Some(n as int);
  }

  /** `s.padStart(width, fill)`: `s` preceded by as many `fill` as bring it to `width`. */
  function PadStart(s: string, width: nat, fill: char): (r: string)
    decreases width - |s|
  {
    if |s| >= width then s else PadStart([fill] + s, width, fill)
  }

  /** `k` copies of `c`. */
  function Repeat(c: char, k: nat): (r: string)
    ensures |r| == k && forall i :: 0 <= i < k ==> r[i] == c
  {
    seq(k, i => c)
  }

  /** `PadStart` puts just enough `fill` before `s` to reach `width`, and nothing else. */
  lemma {:induction false} PadStartPads(s: string, width: nat, fill: char)
    ensures PadStart(s, width, fill) == Repeat(fill, if |s| >= width then 0 else width - |s|) + s
    decreases width - |s|
  {
    if |s| >= width {
      assert Repeat(fill, 0) + s == s;
    } else {
      var k := width - |s|;
      PadStartPads([fill] + s, width, fill);
      assert Repeat(fill, k - 1) + ([fill] + s) == Repeat(fill, k) + s;
    }
  }

  /** The position of the first `c` in `s`. */
  function IndexOf(s: string, c: char): (i: nat)
    requires c in s
    ensures i < |s| && s[i] == c && c !in s[..i]
  {
    if s[0] == c then 0
    else
      var i := 1 + IndexOf(s[1..], c);
      assert s[..i] == [s[0]] + s[1..][..i - 1];
      i
  }

  /** `s.split(sep)` for a one-character separator: the pieces between separators, empty
      pieces included, so there is always at least one. */
  function Split(s: string, sep: char): (parts: seq<string>)
    ensures |parts| >= 1
    ensures forall i :: 0 <= i < |parts| ==> sep !in parts[i]
    decreases |s|
  {
    if sep !in s then [s]
    else
      var i := IndexOf(s, sep);
      [s[..i]] + Split(s[i + 1..], sep)
  }

  function Join(parts: seq<string>, sep: char): string
    requires |parts| >= 1
  {
    if |parts| == 1 then parts[0] else parts[0] + [sep] + Join(parts[1..], sep)
  }

  /** Splitting loses nothing: joining the pieces back with the separator gives `s`. */
  lemma {:induction false} JoinSplit(s: string, sep: char)
    ensures Join(Split(s, sep), sep) == s
    decreases |s|
  {
    if sep in s {
      var i := IndexOf(s, sep);
      var rest := s[i + 1..];
      JoinSplit(rest, sep);
      var parts := Split(s, sep);
      assert parts[1..] == Split(rest, sep);
      assert s == s[..i] + [sep] + rest;
    }
  }

  /** Text with one separator splits into the part before it and the part after it. */
  lemma SplitTwo(a: string, b: string, sep: char)
    requires sep !in a && sep !in b
    ensures Split(a + [sep] + b, sep) == [a, b]
  {
    var s := a + [sep] + b;
    assert s[|a|] == sep;
    var i := IndexOf(s, sep);
    assert s[..i] == a;
    assert s[i + 1..] == b;
  }

  /** The first piece of a split is the text before the first separator (all of `s` when
      there is none). */
  lemma FirstPiece(s: string, sep: char)
    ensures Split(s, sep)[0] == if sep in s then s[..IndexOf(s, sep)] else s
    ensures sep !in Split(s, sep)[0]
    ensures Split(s, sep)[0] <= s
  {
  }

  predicate IsLowerAscii(c: char) { 'a' <= c <= 'z' }

  function ToUpperChar(c: char): char {
    if IsLowerAscii(c) then ((c as int) - 32) as char else c
  }

  /** `toUpperCase` on the ASCII letters: every lower-case letter becomes its capital,
      every other character is kept. */
  function Upper(s: string): (r: string)
    ensures |r| == |s|
    ensures forall i :: 0 <= i < |s| ==> !IsLowerAscii(r[i])
    ensures forall i :: 0 <= i < |s| && !IsLowerAscii(s[i]) ==> r[i] == s[i]
    ensures forall i :: 0 <= i < |s| && IsLowerAscii(s[i]) ==> r[i] as int == s[i] as int - 32
  {
    seq(|s|, i requires 0 <= i < |s| => ToUpperChar(s[i]))
  }

  predicate StartsWith(s: string, prefix: string) {
    |prefix| <= |s| && s[..|prefix|] == prefix
  }

  predicate EndsWith(s: string, suffix: string) {
    |suffix| <= |s| && s[|s| - |suffix|..] == suffix
  }

  /** A concatenation starts with its first part and ends with its second. */
  lemma JoinedEnds(a: string, b: string)
    ensures StartsWith(a + b, a) && EndsWith(a + b, b)
  {
    assert (a + b)[..|a|] == a;
    assert (a + b)[|a + b| - |b|..] == b;
  }
}
