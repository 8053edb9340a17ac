/** Accessibility helpers: hex colour parsing, the contrast ratio between two
    colours and its compliance levels, the heading-level scan, the ARIA
    string builders and the root font size.  The per-channel gamma curve of
    the luminance is a parameter. */
module Accessibility {
  import opened Common

  // ---------------------------------------------------------------------------
  // Hex colours

  datatype Rgb = Rgb(r: int, g: int, b: int)

  predicate InRange(c: Rgb) {
    0 <= c.r <= 255 && 0 <= c.g <= 255 && 0 <= c.b <= 255
  }

  /** `[a-f\d]` under the case-insensitive flag. */
  predicate IsHexChar(c: char) {
    '0' <= c <= '9' || 'a' <= c <= 'f' || 'A' <= c <= 'F'
  }

  function HexValue(c: char): (r: int)
    requires IsHexChar(c)
    ensures 0 <= r < 16
  {
    if '0' <= c <= '9' then c as int - '0' as int
    else if 'a' <= c <= 'f' then c as int - 'a' as int + 10
    else c as int - 'A' as int + 10
  }

  predicate AllHex(s: string) {
    forall i :: 0 <= i < |s| ==> IsHexChar(s[i])
  }

  /** The text `/^#?([a-f\d]{2})([a-f\d]{2})([a-f\d]{2})$/i` accepts. */
  predicate HexShaped(hex: string) {
    (|hex| == 7 && hex[0] == '#' && AllHex(hex[1..])) || (|hex| == 6 && AllHex(hex))
  }

  /** `parseInt` of two hex digits starting at `i`. */
  function Byte(digits: string, i: int): (r: int)
    requires 0 <= i && i + 1 < |digits| && IsHexChar(digits[i]) && IsHexChar(digits[i + 1])
    ensures 0 <= r <= 255
  {
    16 * HexValue(digits[i]) + HexValue(digits[i + 1])
  }

  function ParseDigits(digits: string): (r: Rgb)
    requires |digits| == 6 && AllHex(digits)
    ensures InRange(r)
  {
    Rgb(Byte(digits, 0), Byte(digits, 2), Byte(digits, 4))
  }

  /** `hexToRgb`: an optional `#` then six hex digits in either case; anything else gives none. */
  function HexToRgb(hex: string): (r: Option<Rgb>)
    ensures r.Some? <==> HexShaped(hex)
    ensures r.Some? ==> InRange(r.value)
  {
    if |hex| == 7 && hex[0] == '#' && AllHex(hex[1..]) then Some(ParseDigits(hex[1..]))
    else if |hex| == 6 && AllHex(hex) then Some(ParseDigits(hex))
    else None
  }

  /** The `#` is optional: the bare spelling parses to the same colour. */
  lemma BareSameAsHash(hex: string)
    requires |hex| == 6
    ensures HexToRgb(hex) == HexToRgb("#" + hex)
  {
    assert ("#" + hex)[1..] == hex;
  }

  /** The lower-case hex digit of a value 0..15. */
  function HexDigit(d: int): (c: char)
    requires 0 <= d < 16
    ensures IsHexChar(c) && HexValue(c) == d
  {
    if d < 10 then ('0' as int + d) as char else ('a' as int + d - 10) as char
  }

  /** The two lower-case hex digits of a value 0..255. */
  function HexPair(n: int): (r: string)
    requires 0 <= n <= 255
    ensures |r| == 2 && AllHex(r)
    ensures Byte(r, 0) == n
  {
    [HexDigit(n / 16), HexDigit(n % 16)]
  }

  /** The `#rrggbb` spelling of a colour. */
  function RgbToHex(c: Rgb): (r: string)
    requires InRange(c)
    ensures |r| == 7 && r[0] == '#'
  {
    "#" + HexPair(c.r) + HexPair(c.g) + HexPair(c.b)
  }

  /** Three two-digit pairs side by side parse to their three values. */
  lemma ParsePairs(p: string, q: string, t: string)
    requires |p| == 2 && |q| == 2 && |t| == 2 && AllHex(p) && AllHex(q) && AllHex(t)
    ensures AllHex(p + q + t)
    ensures ParseDigits(p + q + t) == Rgb(Byte(p, 0), Byte(q, 0), Byte(t, 0))
  {
    var d := p + q + t;
    assert d[0] == p[0] && d[1] == p[1] && d[2] == q[0] && d[3] == q[1] && d[4] == t[0] && d[5] == t[1];
  }

  /** Parsing the `#rrggbb` spelling gives the colour back. */
  lemma HexRoundTrip(c: Rgb)
    requires InRange(c)
    ensures HexToRgb(RgbToHex(c)) == Some(c)
  {
    var p, q, t := HexPair(c.r), HexPair(c.g), HexPair(c.b);
    assert RgbToHex(c)[1..] == p + q + t;
    ParsePairs(p, q, t);
  }

  lemma LowerHexValue(c: char)
    requires IsHexChar(c)
    ensures IsHexChar(LowerChar(c)) && HexValue(LowerChar(c)) == HexValue(c)
  {
  }

  /** Lower-casing keeps hex digits hex digits, with the same values. */
  lemma LowerDigits(d: string)
    ensures AllHex(Lower(d)) <==> AllHex(d)
    ensures |d| == 6 && AllHex(d) ==> ParseDigits(Lower(d)) == ParseDigits(d)
  {
    var low := Lower(d);
    forall i | 0 <= i < |d| ensures IsHexChar(low[i]) <==> IsHexChar(d[i]) {
      if IsHexChar(d[i]) {
        LowerHexValue(d[i]);
      }
    }
    if |d| == 6 && AllHex(d) {
      forall i | 0 <= i < 6 ensures HexValue(low[i]) == HexValue(d[i]) {
        LowerHexValue(d[i]);
      }
    }
  }

  /** The parser ignores letter case. */
  lemma HexToRgbIgnoresCase(hex: string)
    ensures HexToRgb(Lower(hex)) == HexToRgb(hex)
  {
    var low := Lower(hex);
    if |hex| == 7 {
      assert low[1..] == Lower(hex[1..]);
      assert low[0] == '#' <==> hex[0] == '#';
      LowerDigits(hex[1..]);
    } else {
      LowerDigits(hex);
    }
  }

  // ---------------------------------------------------------------------------
  // Contrast

  /** The gamma curve of one channel value maps 0..255 into [0, 1]. */
  ghost predicate ValidTransfer(transfer: int -> real) {
    forall v :: 0 <= v <= 255 ==> 0.0 <= transfer(v) <= 1.0
  }

  /** Relative luminance: the weighted sum of the channels after the gamma curve. */
  function Luminance(c: Rgb, transfer: int -> real): (r: real)
    requires InRange(c) && ValidTransfer(transfer)
    ensures 0.0 <= r <= 1.0
  {
    0.2126 * transfer(c.r) + 0.7152 * transfer(c.g) + 0.0722 * transfer(c.b)
  }

  function Max(a: real, b: real): real { if a >= b then a else b }
  function Min(a: real, b: real): real { if a <= b then a else b }

  /** The ratio of the lighter luminance to the darker one, each plus 0.05. */
  function Ratio(l1: real, l2: real): (r: real)
    requires 0.0 <= l1 <= 1.0 && 0.0 <= l2 <= 1.0
    ensures 1.0 <= r <= 21.0
  {
    var hi, lo := Max(l1, l2), Min(l1, l2);
    QuotientBounds(hi + 0.05, lo + 0.05);
    (hi + 0.05) / (lo + 0.05)
  }

  lemma QuotientBounds(n: real, d: real)
    requires 0.0 < d <= n <= 21.0 * d
    ensures 1.0 <= n / d <= 21.0
  {
    var q := n / d;
    assert q * d == n;
    assert (21.0 - q) * d == 21.0 * d - q * d;
    assert (q - 1.0) * d == q * d - d;
  }

  /** The ratio scales the darker luminance (plus 0.05) up to the lighter one (plus 0.05). */
  lemma RatioTimesDarker(l1: real, l2: real)
    requires 0.0 <= l1 <= 1.0 && 0.0 <= l2 <= 1.0
    ensures Ratio(l1, l2) * (Min(l1, l2) + 0.05) == Max(l1, l2) + 0.05
  {
  }

  /** Two luminances have ratio 1 exactly when they are equal. */
  lemma RatioOneIffEqual(l1: real, l2: real)
    requires 0.0 <= l1 <= 1.0 && 0.0 <= l2 <= 1.0
    ensures Ratio(l1, l2) == 1.0 <==> l1 == l2
  {
    RatioTimesDarker(l1, l2);
    if Ratio(l1, l2) == 1.0 {
      assert 1.0 * (Min(l1, l2) + 0.05) == Max(l1, l2) + 0.05;
    }
    if l1 == l2 {
      assert Min(l1, l2) == l1 && Max(l1, l2) == l1;
      ScaleOrder(Ratio(l1, l2), 1.0, l1 + 0.05);
      ScaleOrder(1.0, Ratio(l1, l2), l1 + 0.05);
    }
  }

  /** White against black reaches the maximum ratio of 21. */
  lemma RatioBlackWhite()
    ensures Ratio(1.0, 0.0) == 21.0
    ensures Ratio(0.0, 1.0) == 21.0
  {
  }

  /** Against a fixed darker luminance, a lighter colour never lowers the ratio. */
  lemma RatioMonotone(a: real, b: real, d: real)
    requires 0.0 <= d <= a <= b <= 1.0
    ensures Ratio(a, d) <= Ratio(b, d)
  {
    RatioTimesDarker(a, d);
    RatioTimesDarker(b, d);
    var ra, rb := Ratio(a, d), Ratio(b, d);
    assert Min(a, d) == d && Max(a, d) == a && Min(b, d) == d && Max(b, d) == b;
    ScaleOrderOf(ra, rb, d + 0.05, a + 0.05, b + 0.05);
  }

  /** Two quantities scaled by the same positive factor keep the order of their products. */
  lemma ScaleOrderOf(x: real, y: real, z: real, p: real, q: real)
    requires z > 0.0 && x * z == p && y * z == q && p <= q
    ensures x <= y
  {
    ScaleOrder(x, y, z);
  }

  /** A positive factor can be cancelled from both sides of `<=`. */
  lemma ScaleOrder(x: real, y: real, z: real)
    requires z > 0.0 && x * z <= y * z
    ensures x <= y
  {
    if x > y {
      PositiveProduct(x - y, z);
    }
  }

  lemma PositiveProduct(x: real, y: real)
    requires x > 0.0 && y > 0.0
    ensures x * y > 0.0
  {
  }

  /** Black on white has contrast 21 whenever the gamma curve fixes its endpoints. */
  lemma BlackOnWhite(transfer: int -> real)
    requires ValidTransfer(transfer) && transfer(0) == 0.0 && transfer(255) == 1.0
    ensures CalculateContrast("#000000", "#ffffff", transfer) == 21.0
  {
    var black, white := "#000000", "#ffffff";
    assert black[1..] == "000000" && white[1..] == "ffffff";
    assert HexToRgb(black) == Some(Rgb(0, 0, 0));
    assert HexToRgb(white) == Some(Rgb(255, 255, 255));
    assert Luminance(Rgb(0, 0, 0), transfer) == 0.0;
    assert Luminance(Rgb(255, 255, 255), transfer) == 1.0;
  }

  /** `calculateContrast`: 0 when either colour does not parse, otherwise a ratio in [1, 21]. */
  function CalculateContrast(color1: string, color2: string, transfer: int -> real): (r: real)
    requires ValidTransfer(transfer)
    ensures r == 0.0 <==> !HexShaped(color1) || !HexShaped(color2)
    ensures HexShaped(color1) && HexShaped(color2) ==> 1.0 <= r <= 21.0
  {
    match (HexToRgb(color1), HexToRgb(color2))
    case (Some(c1), Some(c2)) => Ratio(Luminance(c1, transfer), Luminance(c2, transfer))
    case _ => 0.0
  }

  /** The contrast does not depend on which colour is the foreground. */
  lemma ContrastSymmetric(color1: string, color2: string, transfer: int -> real)
    requires ValidTransfer(transfer)
    ensures CalculateContrast(color1, color2, transfer) == CalculateContrast(color2, color1, transfer)
  {
  }

  datatype Compliance = Compliance(contrast: real, aa: bool, aaa: bool, aaLarge: bool, aaaLarge: bool)

  /** The WCAG thresholds: 4.5 for AA, 7 for AAA, 3 for large-text AA, 4.5 for large-text AAA. */
  function ComplianceFor(contrast: real): (r: Compliance)
    ensures r.contrast == contrast
    ensures r.aa <==> contrast >= 4.5
    ensures r.aaa <==> contrast >= 7.0
    ensures r.aaLarge <==> contrast >= 3.0
    ensures r.aaaLarge <==> contrast >= 4.5
    ensures r.aaa ==> r.aa
    ensures r.aa ==> r.aaLarge
    ensures r.aa == r.aaaLarge
    ensures contrast < 3.0 <==> !r.aaLarge
  {
    Compliance(contrast, contrast >= 4.5, contrast >= 7.0, contrast >= 3.0, contrast >= 4.5)
  }

  /** `checkContrastCompliance`: a colour that does not parse passes no level. */
  function CheckContrastCompliance(foreground: string, background: string, transfer: int -> real): (r: Compliance)
    requires ValidTransfer(transfer)
    ensures !HexShaped(foreground) || !HexShaped(background) ==>
              r.contrast == 0.0 && !r.aaLarge && !r.aa && !r.aaa && !r.aaaLarge
    ensures r.contrast == CalculateContrast(foreground, background, transfer)
    ensures r.contrast == CalculateContrast(background, foreground, transfer)
    ensures r.aa <==> r.contrast >= 4.5
    ensures r.aaa <==> r.contrast >= 7.0
    ensures r.aaLarge <==> r.contrast >= 3.0
    ensures r.aaaLarge <==> r.contrast >= 4.5
  {
    ContrastSymmetric(foreground, background, transfer);
    ComplianceFor(CalculateContrast(foreground, background, transfer))
  }

  // ---------------------------------------------------------------------------
  // Heading structure

  /** The level before heading `i`; the scan starts from level 0. */
  function PreviousLevel(levels: seq<int>, i: int): int
    requires 0 <= i < |levels|
  {
    if i == 0 then 0 else levels[i - 1]
  }

  /** Heading `i` skips a level: it is more than one deeper than the one before it. */
  predicate Skips(levels: seq<int>, i: int)
    requires 0 <= i < |levels|
  {
    levels[i] > PreviousLevel(levels, i) + 1
  }

  /** A reported skip: where it is, and the levels it goes from and to. */
  datatype Issue = Issue(position: nat, fromLevel: int, toLevel: int)

  /** `checkSemanticStructure` over the page's heading levels, in document order. */
  method CheckSemanticStructure(levels: seq<int>) returns (issues: seq<Issue>)
    ensures |issues| <= |levels|
    ensures forall k :: 0 <= k < |issues| ==>
              issues[k].position < |levels|
              && Skips(levels, issues[k].position)
              && issues[k].fromLevel == PreviousLevel(levels, issues[k].position)
              && issues[k].toLevel == levels[issues[k].position]
    ensures forall i :: 0 <= i < |levels| && Skips(levels, i) ==> exists k :: 0 <= k < |issues| && issues[k].position == i
    ensures forall k, m :: 0 <= k < m < |issues| ==> issues[k].position < issues[m].position
  {
    issues := [];
    var previous := 0;
    var i := 0;
    while i < |levels|
      invariant 0 <= i <= |levels|
      invariant |issues| <= i
      invariant previous == (if i == 0 then 0 else levels[i - 1])
      invariant forall k :: 0 <= k < |issues| ==>
                  issues[k].position < i
                  && Skips(levels, issues[k].position)
                  && issues[k].fromLevel == PreviousLevel(levels, issues[k].position)
                  && issues[k].toLevel == levels[issues[k].position]
      invariant forall j :: 0 <= j < i && Skips(levels, j) ==> exists k :: 0 <= k < |issues| && issues[k].position == j
      invariant forall k, m :: 0 <= k < m < |issues| ==> issues[k].position < issues[m].position
    {
      var current := levels[i];
      assert previous == PreviousLevel(levels, i);
      if current > previous + 1 {
        ghost var before := issues;
        issues := issues + [Issue(i, previous, current)];
        assert forall k :: 0 <= k < |before| ==> issues[k] == before[k];
        assert issues[|before|].position == i;
      }
      previous := current;
      i := i + 1;
    }
  }

  // ---------------------------------------------------------------------------
  // ARIA strings and font size

  /** `createAriaLabel`: the text, followed by `, context` when there is a context. */
  function CreateAriaLabel(text: string, context: Option<string>): (r: string)
    ensures !Truthy(context) ==> r == text
    ensures Truthy(context) ==> |r| == |text| + 2 + |context.value|
                                && r[..|text|] == text && r[|text|..] == ", " + context.value
  {
    if Truthy(context) then text + ", " + context.value else text
  }

  function TruthyParts(parts: seq<Option<string>>): (r: seq<string>)
    ensures |r| <= |parts|
    ensures forall i :: 0 <= i < |r| ==> r[i] != ""
  {
    if parts == [] then []
    else (if Truthy(parts[0]) then [parts[0].value] else []) + TruthyParts(parts[1..])
  }

  /** `createAriaDescription`: the present, non-empty parts joined with `. `. */
  function CreateAriaDescription(description: Option<string>, instructions: Option<string>): (r: string)
    ensures Truthy(description) && Truthy(instructions) ==> r == description.value + ". " + instructions.value
    ensures Truthy(description) && !Truthy(instructions) ==> r == description.value
    ensures !Truthy(description) && Truthy(instructions) ==> r == instructions.value
    ensures !Truthy(description) && !Truthy(instructions) ==> r == ""
  {
    var parts := TruthyParts([description, instructions]);
    assert [description, instructions][1..] == [instructions];
    assert [instructions][1..] == [];
    assert TruthyParts([instructions]) == (if Truthy(instructions) then [instructions.value] else []);
    assert parts == (if Truthy(description) then [description.value] else [])
                    + (if Truthy(instructions) then [instructions.value] else []);
    if Truthy(description) && Truthy(instructions) then
      assert parts == [description.value, instructions.value];
      assert parts[1..] == [instructions.value];
      assert Join(parts, ". ") == parts[0] + ". " + Join(parts[1..], ". ");
      Join(parts, ". ")
    else
      Join(parts, ". ")
  }

  datatype Preferences = Preferences(reducedMotion: bool, highContrast: bool, fontSize: string)

  /** `updateFontSize`: record the size and set the root font size in pixels. */
  function UpdateFontSize(prefs: Preferences, size: string): (r: (Preferences, int))
    ensures r.0 == prefs.(fontSize := size)
    ensures r.1 == 18 <==> size == "large"
    ensures r.1 == 14 <==> size == "small"
    ensures r.1 == 16 <==> size != "large" && size != "small"
  {
    (prefs.(fontSize := size), if size == "large" then 18 else if size == "small" then 14 else 16)
  }
}
