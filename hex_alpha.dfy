/** The two-digit alpha suffix appended to `#rrggbb` colours in src/App.tsx:
    `Math.floor(v).toString(16).padStart(2, '0')`. */
module HexAlpha {

  const HexDigits: string := "0123456789abcdef"

  predicate IsHexDigit(c: char) {
    c in HexDigits
  }

  predicate IsHexString(s: string) {
    forall k :: 0 <= k < |s| ==> IsHexDigit(s[k])
  }

  /** The value of one lowercase hexadecimal digit. */
  function DigitValue(c: char): (d: nat)
    ensures d < 16
    ensures IsHexDigit(c) ==> HexDigits[d] == c
  {
    if '0' <= c <= '9' then c as int - '0' as int
    else if 'a' <= c <= 'f' then c as int - 'a' as int + 10
    else 0
  }

  /** The number a string of hexadecimal digits denotes, most significant first. */
  function HexValue(s: string): nat {
    if s == [] then 0 else HexValue(s[..|s| - 1]) * 16 + DigitValue(s[|s| - 1])
  }

  /** `n.toString(16)` for a non-negative integer: lowercase digits, no leading zeros. */
  function NatToHex(n: nat): (s: string)
    decreases n
  {
    if n < 16 then [HexDigits[n]] else NatToHex(n / 16) + [HexDigits[n % 16]]
  }

  /** `Number.prototype.toString(16)` on an integer: a minus sign before the
      digits of the magnitude when negative. */
  function IntToHex(i: int): string {
    if i < 0 then "-" + NatToHex(-i) else NatToHex(i)
  }

  /** `String.prototype.padStart(target, fill)` with a one-character fill:
      prepend fill characters up to the target length, never truncate. */
  function PadStart(s: string, target: nat, fill: char): (r: string)
    ensures |r| == if |s| >= target then |s| else target
    ensures r[|r| - |s|..] == s
    ensures forall k :: 0 <= k < |r| - |s| ==> r[k] == fill
  {
    if |s| >= target then s else seq(target - |s|, _ => fill) + s
  }

  /** The suffix `Math.floor(v).toString(16).padStart(2, '0')`. */
  function AlphaSuffix(v: real): string {
    PadStart(IntToHex(v.Floor), 2, '0')
  }

  lemma DigitRoundTrip(d: nat)
    requires d < 16
    ensures IsHexDigit(HexDigits[d]) && DigitValue(HexDigits[d]) == d
  {
  }

  /** Hexadecimal printing is undone by hexadecimal reading, and prints only
      lowercase hex digits. */
  lemma {:induction false} NatToHexRoundTrip(n: nat)
    ensures IsHexString(NatToHex(n))
    ensures HexValue(NatToHex(n)) == n
    decreases n
  {
    var s := NatToHex(n);
    if n >= 16 {
      var q, d := n / 16, n % 16;
      NatToHexRoundTrip(q);
      DigitRoundTrip(d);
      assert s == NatToHex(q) + [HexDigits[d]];
      assert s[..|s| - 1] == NatToHex(q);
      assert HexValue(s) == q * 16 + d;
    } else {
      DigitRoundTrip(n);
      assert s[..0] == [];
    }
  }

  /** Below 16 one digit is printed, from 16 to 255 two, and from 256 on at least three. */
  lemma {:induction false} NatToHexLength(n: nat)
    ensures n < 16 ==> |NatToHex(n)| == 1
    ensures 16 <= n < 256 ==> |NatToHex(n)| == 2
    ensures 256 <= n ==> |NatToHex(n)| >= 3
    decreases n
  {
    if n >= 16 {
      NatToHexLength(n / 16);
    }
  }

  /** A negative integer prints as '-' followed by the digits of its magnitude,
      a non-negative one as its digits alone; either way the digits read back. */
  lemma IntToHexRoundTrip(i: int)
    ensures var s := IntToHex(i);
      && |s| > 0
      && (s[0] == '-' <==> i < 0)
      && IsHexString(if i < 0 then s[1..] else s)
      && HexValue(if i < 0 then s[1..] else s) == (if i < 0 then -i else i)
  {
    var n: nat := if i < 0 then -i else i;
    NatToHexRoundTrip(n);
    var digits := NatToHex(n);
    assert |digits| > 0;
    assert IsHexDigit(digits[0]);
    if i < 0 {
      assert IntToHex(i)[1..] == digits;
    }
  }

  lemma {:induction false} LeadingZero(s: string)
    ensures HexValue("0" + s) == HexValue(s)
    decreases |s|
  {
    if s != [] {
      var t := "0" + s;
      assert t[..|t| - 1] == "0" + s[..|s| - 1];
      LeadingZero(s[..|s| - 1]);
    }
  }

  /** For 0 <= v < 256 the suffix is exactly two lowercase hex digits that read
      back as floor(v): a well-formed `#rrggbbaa` alpha byte. */
  lemma AlphaSuffixTwoDigits(v: real)
    requires 0.0 <= v < 256.0
    ensures |AlphaSuffix(v)| == 2
    ensures IsHexString(AlphaSuffix(v))
    ensures HexValue(AlphaSuffix(v)) == v.Floor
  {
    var n: nat := v.Floor;
    NatToHexLength(n);
    NatToHexRoundTrip(n);
    if n < 16 {
      LeadingZero(NatToHex(n));
      assert AlphaSuffix(v) == "0" + NatToHex(n);
    }
  }

  /** Below 0 the suffix starts with the minus sign, which is no hex digit. */
  lemma AlphaSuffixNegative(v: real)
    requires v < 0.0
    ensures |AlphaSuffix(v)| >= 2 && AlphaSuffix(v)[0] == '-' && !IsHexDigit(AlphaSuffix(v)[0])
  {
    var i := v.Floor;
    assert i < 0;
    var digits := NatToHex(-i);
    assert |digits| > 0;
    var printed := IntToHex(i);
    assert printed == "-" + digits;
    assert PadStart(printed, 2, '0') == printed;
    assert !IsHexDigit('-');
  }

  /** From 256 on the suffix has three or more digits, so the colour string is
      no longer an `#rrggbbaa` colour. */
  lemma AlphaSuffixOverflows(v: real)
    requires v >= 256.0
    ensures |AlphaSuffix(v)| >= 3
  {
    NatToHexLength(v.Floor);
  }

  /** The star-core alpha `min(255, b * 255)`: clamped, it is two digits for any
      non-negative brightness, however large. */
  function CoreAlpha(finalBrightness: real): (suffix: string)
    requires finalBrightness >= 0.0
    ensures |suffix| == 2 && IsHexString(suffix)
    ensures HexValue(suffix) <= 255
    ensures finalBrightness <= 1.0 ==> HexValue(suffix) == (finalBrightness * 255.0).Floor
  {
    var v := if 255.0 < finalBrightness * 255.0 then 255.0 else finalBrightness * 255.0;
    AlphaSuffixTwoDigits(v);
    AlphaSuffix(v)
  }
}
