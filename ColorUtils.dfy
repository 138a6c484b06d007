/** The colour arithmetic of `ColorUtils`: relative luminance of a hex colour
    and the contrast ratio of two colours, as defined by WCAG 2.1. Numbers are
    exact reals. The gamma branch of the sRGB transfer function,
    `((v + 0.055) / 1.055) ^ 2.4`, is not computable here: every function that
    needs it takes it as the parameter `powBranch`, and the facts that use its
    range say so with `PowBranchInUnit(powBranch)`. */
module ColorUtils {
  import opened JsStrings
  import opened Hex

  // ---------------------------------------------------------------------------
  // Decoding `#rrggbb` into three bytes
  // ---------------------------------------------------------------------------

  /** `r` is `s` with its character at `i`, the first `#` of `s`, removed. */
  ghost predicate RemovesFirstHashAt(s: string, r: string, i: nat) {
    i < |s| && s[i] == '#' && |r| == |s| - 1
    && (forall k :: 0 <= k < i ==> s[k] != '#' && r[k] == s[k])
    && (forall k :: i <= k < |r| ==> r[k] == s[k + 1])
  }

  /** `s.replace('#', '')`: a string pattern replaces its first occurrence only. */
  function StripFirstHash(s: string): (r: string)
    ensures '#' !in s ==> r == s
    ensures '#' in s ==> exists i: nat :: RemovesFirstHashAt(s, r, i)
  {
    if s == [] then []
    else if s[0] == '#' then
      assert RemovesFirstHashAt(s, s[1..], 0);
      s[1..]
    else
      var rest := StripFirstHash(s[1..]);
      assert '#' in s ==> exists i: nat :: RemovesFirstHashAt(s, [s[0]] + rest, i) by {
        if '#' in s {
          var i: nat :| RemovesFirstHashAt(s[1..], rest, i);
          assert RemovesFirstHashAt(s, [s[0]] + rest, i + 1);
        }
      }
      [s[0]] + rest
  }

  /** `s.match(/.{2}/g)` on a string without line terminators: its successive
      two-character pieces, an odd last character dropped. */
  function TwoCharChunks(s: string): (r: seq<string>)
    ensures |r| == |s| / 2
    ensures forall i :: 0 <= i < |r| ==> r[i] == s[2 * i..2 * i + 2]
  {
    if |s| < 2 then [] else [s[..2]] + TwoCharChunks(s[2..])
  }

  /** What `luminance` needs to produce a number: removing the first `#` leaves
      exactly six hex digits. */
  predicate IsLuminanceInput(hex: string) {
    var d := StripFirstHash(hex);
    |d| == 6 && AllHex(d)
  }

  /** `parseInt(p, 16)` for a two-digit piece. */
  function ParseHexPair(p: string): (v: nat)
    requires |p| == 2 && AllHex(p)
    ensures v < 256
  {
    16 * DigitValue(p[0]) + DigitValue(p[1])
  }

  /** The red, green and blue bytes of a colour. */
  function RgbBytes(hex: string): (rgb: seq<nat>)
    requires IsLuminanceInput(hex)
    ensures |rgb| == 3
    ensures forall i :: 0 <= i < 3 ==> rgb[i] < 256
  {
    var d := StripFirstHash(hex);
    var pairs := TwoCharChunks(d);
    assert forall i :: 0 <= i < |pairs| ==> |pairs[i]| == 2 && AllHex(pairs[i]) by {
      forall i | 0 <= i < |pairs| ensures |pairs[i]| == 2 && AllHex(pairs[i]) {
        assert pairs[i] == d[2 * i..2 * i + 2];
      }
    }
    seq(|pairs|, i requires 0 <= i < |pairs| => ParseHexPair(pairs[i]))
  }

  /** The canonical string of a 24-bit colour, the inverse of `RgbBytes`. */
  function ColorOf(r: nat, g: nat, b: nat): (s: string)
    requires r < 256 && g < 256 && b < 256
    ensures IsCanonicalColor(s)
  {
    ['#', LowerDigit(r / 16), LowerDigit(r % 16), LowerDigit(g / 16), LowerDigit(g % 16),
     LowerDigit(b / 16), LowerDigit(b % 16)]
  }

  /** Every canonical colour is accepted by `luminance`: its only `#` is the first character. */
  lemma CanonicalIsLuminanceInput(s: string)
    requires IsCanonicalColor(s)
    ensures StripFirstHash(s) == s[1..]
    ensures IsLuminanceInput(s)
  {
    assert s == ['#'] + s[1..];
  }

  /** Decoding the string of three bytes gives those bytes back. */
  lemma RgbBytesOfColorOf(r: nat, g: nat, b: nat)
    requires r < 256 && g < 256 && b < 256
    ensures IsLuminanceInput(ColorOf(r, g, b))
    ensures RgbBytes(ColorOf(r, g, b)) == [r, g, b]
  {
    var s := ColorOf(r, g, b);
    CanonicalIsLuminanceInput(s);
    var pairs := TwoCharChunks(s[1..]);
    assert pairs[0] == s[1..3] && pairs[1] == s[3..5] && pairs[2] == s[5..7];
  }

  /** Encoding the bytes decoded from a canonical colour gives that colour back. */
  lemma ColorOfRgbBytes(s: string)
    requires IsCanonicalColor(s)
    ensures IsLuminanceInput(s)
    ensures var rgb := RgbBytes(s); ColorOf(rgb[0], rgb[1], rgb[2]) == s
  {
    CanonicalIsLuminanceInput(s);
    var pairs := TwoCharChunks(s[1..]);
    assert pairs[0] == s[1..3] && pairs[1] == s[3..5] && pairs[2] == s[5..7];
    var rgb := RgbBytes(s);
    forall i | 1 <= i < 7 ensures LowerDigit(DigitValue(s[i])) == s[i] {
      LowerDigitOfValue(s[i]);
    }
    assert rgb[0] / 16 == DigitValue(s[1]) && rgb[0] % 16 == DigitValue(s[2]);
    assert rgb[1] / 16 == DigitValue(s[3]) && rgb[1] % 16 == DigitValue(s[4]);
    assert rgb[2] / 16 == DigitValue(s[5]) && rgb[2] % 16 == DigitValue(s[6]);
  }

  /** Each byte divided by 255: the channel values in [0, 1]. */
  function Channels(hex: string): (c: seq<real>)
    requires IsLuminanceInput(hex)
    ensures |c| == 3
    ensures forall i :: 0 <= i < 3 ==> 0.0 <= c[i] <= 1.0
  {
    var rgb := RgbBytes(hex);
    seq(3, i requires 0 <= i < 3 => rgb[i] as real / 255.0)
  }

  // ---------------------------------------------------------------------------
  // Linearisation and the weighted sum
  // ---------------------------------------------------------------------------

  const Threshold: real := 0.03928

  /** The abstracted gamma branch maps the channel values it is used for into [0, 1]. */
  ghost predicate PowBranchInUnit(powBranch: real -> real) {
    forall v :: Threshold < v <= 1.0 ==> 0.0 <= powBranch(v) <= 1.0
  }

  /** The sRGB transfer function: `v / 12.92` up to the threshold, the gamma
      branch above it. */
  function Linearize(v: real, powBranch: real -> real): (lin: real)
    ensures 0.0 <= v <= Threshold ==> 0.0 <= lin <= v
    ensures 0.0 <= v <= 1.0 && PowBranchInUnit(powBranch) ==> 0.0 <= lin <= 1.0
  {
    if v <= Threshold then v / 12.92 else powBranch(v)
  }

  function Min(x: real, y: real): real { if x <= y then x else y }

  function Max(x: real, y: real): real { if x <= y then y else x }

  /** `0.2126 r + 0.7152 g + 0.0722 b`. The weights are positive and sum to 1,
      so the sum lies between the smallest and the largest channel. */
  function WeightedSum(r: real, g: real, b: real): (l: real)
    ensures Min(r, Min(g, b)) <= l <= Max(r, Max(g, b))
    ensures r == g == b ==> l == r
  {
    0.2126 * r + 0.7152 * g + 0.0722 * b
  }

  /** `ColorUtils.luminance`: the relative luminance of a colour. */
  function Luminance(hex: string, powBranch: real -> real): (l: real)
    requires IsLuminanceInput(hex)
    ensures PowBranchInUnit(powBranch) ==> 0.0 <= l <= 1.0
  {
    var c := Channels(hex);
    var lin := seq(3, i requires 0 <= i < 3 => Linearize(c[i], powBranch));
    WeightedSum(lin[0], lin[1], lin[2])
  }

  // ---------------------------------------------------------------------------
  // The contrast ratio
  // ---------------------------------------------------------------------------

  /** `(lighter + 0.05) / (darker + 0.05)` before rounding. */
  function UnroundedRatio(lum1: real, lum2: real): (ratio: real)
    requires lum1 > -0.05 && lum2 > -0.05
    ensures ratio >= 1.0
    ensures ratio == 1.0 <==> lum1 == lum2
  {
    var lighter := Max(lum1, lum2);
    var darker := Min(lum1, lum2);
    QuotientAtLeastOne(lighter + 0.05, darker + 0.05);
    (lighter + 0.05) / (darker + 0.05)
  }

  /** A quotient whose numerator is at least its positive denominator is at
      least 1, and exactly 1 when the two are equal. */
  lemma QuotientAtLeastOne(n: real, d: real)
    requires d > 0.0 && n >= d
    ensures n / d >= 1.0
    ensures n / d == 1.0 <==> n == d
  {
    var q := n / d;
    assert q * d == n;
    if q < 1.0 {
      ScaleStrict(q, 1.0, d);
    }
  }

  /** Multiplying by a positive number keeps a strict order. */
  lemma ScaleStrict(x: real, y: real, d: real)
    requires d > 0.0 && x < y
    ensures x * d < y * d
  {
    assert y * d - x * d == (y - x) * d;
  }

  /** The order of the two luminances does not matter. */
  lemma RatioSymmetric(lum1: real, lum2: real)
    requires lum1 > -0.05 && lum2 > -0.05
    ensures UnroundedRatio(lum1, lum2) == UnroundedRatio(lum2, lum1)
  {
  }

  /** Luminances in [0, 1] give a ratio of at most 21, and exactly 21 only for
      luminances 1 and 0. */
  lemma RatioAtMost21(lum1: real, lum2: real)
    requires 0.0 <= lum1 <= 1.0 && 0.0 <= lum2 <= 1.0
    ensures UnroundedRatio(lum1, lum2) <= 21.0
    ensures UnroundedRatio(lum1, lum2) == 21.0 <==> Max(lum1, lum2) == 1.0 && Min(lum1, lum2) == 0.0
  {
    var lighter, darker := Max(lum1, lum2), Min(lum1, lum2);
    var n, d := lighter + 0.05, darker + 0.05;
    var ratio := n / d;
    assert ratio == UnroundedRatio(lum1, lum2);
    assert ratio * d == n;
    QuotientAtMost(n, 21.0, d);
    if ratio == 21.0 {
      assert n == 21.0 * d;
    }
  }

  /** A numerator of at most `m` times its positive denominator gives a
      quotient of at most `m`. */
  lemma QuotientAtMost(n: real, m: real, d: real)
    requires d > 0.0 && n <= m * d
    ensures n / d <= m
  {
    var q := n / d;
    assert q * d == n;
    if q > m {
      ScaleStrict(m, q, d);
    }
  }

  function Abs(x: real): real { if x < 0.0 then -x else x }

  /** A whole number of hundredths. */
  predicate IsCents(x: real) {
    (x * 100.0).Floor as real == x * 100.0
  }

  const ExponentLimit: real := 1000000000000000000000.0

  /** `Number(x.toFixed(2))` for `x >= 0`, in exact arithmetic: the nearest
      hundredth, the larger one on a tie; from 10^21 on the value is kept. */
  function ToFixed2NonNeg(x: real): (r: real)
    requires x >= 0.0
    ensures x < ExponentLimit ==> IsCents(r) && x - 0.005 < r <= x + 0.005
    ensures x >= ExponentLimit ==> r == x
  {
    if x >= ExponentLimit then x
    else
      var n := (x * 100.0 + 0.5).Floor;
      var r := n as real / 100.0;
      assert r * 100.0 == n as real;
      r
  }

  /** `Number(x.toFixed(2))`: a negative number is rounded as its magnitude. */
  function ToFixed2(x: real): (r: real)
    ensures Abs(x) < ExponentLimit ==> IsCents(r) && Abs(r - x) <= 0.005
    ensures 0.0 <= x < ExponentLimit ==> x - 0.005 < r <= x + 0.005
    ensures x < 0.0 && Abs(x) < ExponentLimit ==> x - 0.005 <= r < x + 0.005
    ensures Abs(x) >= ExponentLimit ==> r == x
  {
    if x < 0.0 then
      var m := ToFixed2NonNeg(-x);
      assert (-m * 100.0).Floor == -(m * 100.0).Floor || Abs(x) >= ExponentLimit;
      -m
    else ToFixed2NonNeg(x)
  }

  /** Rounding to hundredths keeps a value of [1, 21] in [1, 21]. */
  lemma ToFixed2InRange(x: real)
    requires 1.0 <= x <= 21.0
    ensures 1.0 <= ToFixed2(x) <= 21.0
  {
    var n := (x * 100.0 + 0.5).Floor;
    assert 100 <= n <= 2100;
  }

  /** `ColorUtils.contrastRatio`: the ratio of the two luminances, rounded to hundredths. */
  function ContrastRatio(hex1: string, hex2: string, powBranch: real -> real): (ratio: real)
    requires IsLuminanceInput(hex1) && IsLuminanceInput(hex2)
    requires PowBranchInUnit(powBranch)
    ensures 1.0 <= ratio <= 21.0
    ensures IsCents(ratio)
    ensures Abs(ratio - UnroundedRatio(Luminance(hex1, powBranch), Luminance(hex2, powBranch))) <= 0.005
  {
    var lum1 := Luminance(hex1, powBranch);
    var lum2 := Luminance(hex2, powBranch);
    var unrounded := UnroundedRatio(lum1, lum2);
    RatioAtMost21(lum1, lum2);
    ToFixed2InRange(unrounded);
    ToFixed2(unrounded)
  }

  /** Swapping the two colours gives the same ratio. */
  lemma ContrastRatioSymmetric(hex1: string, hex2: string, powBranch: real -> real)
    requires IsLuminanceInput(hex1) && IsLuminanceInput(hex2)
    requires PowBranchInUnit(powBranch)
    ensures ContrastRatio(hex1, hex2, powBranch) == ContrastRatio(hex2, hex1, powBranch)
  {
    RatioSymmetric(Luminance(hex1, powBranch), Luminance(hex2, powBranch));
  }

  /** Colours of equal luminance, in particular a colour against itself, have ratio 1. */
  lemma ContrastRatioOfEqualLuminance(hex1: string, hex2: string, powBranch: real -> real)
    requires IsLuminanceInput(hex1) && IsLuminanceInput(hex2)
    requires PowBranchInUnit(powBranch)
    requires Luminance(hex1, powBranch) == Luminance(hex2, powBranch)
    ensures ContrastRatio(hex1, hex2, powBranch) == 1.0
  {
    var n := (1.0 * 100.0 + 0.5).Floor;
    assert n == 100;
  }

  /** Black on white has the largest ratio, 21, given that the gamma branch
      sends full intensity to 1 (as `1 ^ 2.4 == 1`). */
  lemma BlackWhiteRatio(powBranch: real -> real)
    requires PowBranchInUnit(powBranch) && powBranch(1.0) == 1.0
    ensures IsLuminanceInput("#000000") && IsLuminanceInput("#ffffff")
    ensures ContrastRatio("#000000", "#ffffff", powBranch) == 21.0
  {
    assert IsCanonicalColor("#000000") && IsCanonicalColor("#ffffff");
    RgbBytesOfColorOf(0, 0, 0);
    RgbBytesOfColorOf(255, 255, 255);
    assert ColorOf(0, 0, 0) == "#000000";
    assert ColorOf(255, 255, 255) == "#ffffff";
    assert Luminance("#000000", powBranch) == 0.0;
    assert Luminance("#ffffff", powBranch) == 1.0;
    var n := (21.0 * 100.0 + 0.5).Floor;
    assert n == 2100;
  }
}
