/** The colour helpers of buildsan.js: the five score colours of
    `getScoreColor`, the six frame-rate colours of `getFpsColor` and the
    hex-colour lightening of `getLighterColor`. */
module Colors {
  import opened Wrappers
  import opened Text
  import opened Numbers

  // ---------------------------------------------------------------------------
  // Colour bands
  // ---------------------------------------------------------------------------

  /** The score colours from worst to best. */
  const ScorePalette: seq<string> := ["#e74c3c", "#e67e22", "#f1c40f", "#27ae60", "#2ecc71"]

  /** The frame-rate colours from worst to best. */
  const FpsPalette: seq<string> := ["#B71C1C", "#E53935", "#FB8C00", "#039BE5", "#7CB342", "#388E3C"]

  /** `getScoreColor(score)`: green from 90, dark green from 70, yellow from
      50, orange from 30, red below. */
  function ScoreColor(score: int): (c: string)
    ensures c in ScorePalette
    ensures c == "#2ecc71" <==> score >= 90
    ensures c == "#e74c3c" <==> score < 30
  {
    if score >= 90 then "#2ecc71"
    else if score >= 70 then "#27ae60"
    else if score >= 50 then "#f1c40f"
    else if score >= 30 then "#e67e22"
    else "#e74c3c"
  }

  /** Position of a score colour in the palette, worst first. */
  function ScoreRank(score: int): (k: nat)
    ensures k < |ScorePalette| && ScorePalette[k] == ScoreColor(score)
  {
    if score >= 90 then 4 else if score >= 70 then 3 else if score >= 50 then 2
    else if score >= 30 then 1 else 0
  }

  /** A higher score never gets a worse colour. */
  lemma ScoreColorMonotone(s: int, t: int)
    requires s <= t
    ensures ScoreRank(s) <= ScoreRank(t)
  {
  }

  /** `getFpsColor(fps)`: dark green from 240, light green from 144, blue from
      100, orange from 60, light red from 30, dark red below. */
  function FpsColor(fps: int): (c: string)
    ensures c in FpsPalette
    ensures c == "#388E3C" <==> fps >= 240
    ensures c == "#B71C1C" <==> fps < 30
  {
    if fps >= 240 then "#388E3C"
    else if fps >= 144 then "#7CB342"
    else if fps >= 100 then "#039BE5"
    else if fps >= 60 then "#FB8C00"
    else if fps >= 30 then "#E53935"
    else "#B71C1C"
  }

  /** Position of a frame-rate colour in the palette, worst first. */
  function FpsRank(fps: int): (k: nat)
    ensures k < |FpsPalette| && FpsPalette[k] == FpsColor(fps)
  {
    if fps >= 240 then 5 else if fps >= 144 then 4 else if fps >= 100 then 3
    else if fps >= 60 then 2 else if fps >= 30 then 1 else 0
  }

  /** A higher frame rate never gets a worse colour. */
  lemma FpsColorMonotone(s: int, t: int)
    requires s <= t
    ensures FpsRank(s) <= FpsRank(t)
  {
  }

  // ---------------------------------------------------------------------------
  // `getLighterColor`
  // ---------------------------------------------------------------------------

  /** `Math.min(255, x + 40)`; NaN stays NaN. */
  function Lighten(x: Option<int>): (y: Option<int>)
    ensures y.Some? <==> x.Some?
    ensures x.Some? ==> x.value < y.value || y.value == 255
    ensures x.Some? && x.value <= 255 ==> x.value <= y.value <= 255
  {
    match x
    case Some(v) => Some(MinInt(255, v + 40))
    case None => None
  }

  /** `x.toString(16).padStart(2, '0')`; NaN prints as "NaN". */
  function HexText(x: Option<int>): (t: string)
    ensures |t| >= 2
  {
    match x
    case Some(v) => PadStart(IntToString(v, 16), 2, '0')
    case None => "NaN"
  }

  /** `getLighterColor(color)`: drop the first '#', read the three two-character
      channels in base 16, add 40 to each up to 255 and write them back. */
  function LighterColor(color: string): (r: string)
    ensures |r| >= 7 && r[0] == '#'
  {
    var hex := RemoveFirst(color, '#');
    var red := ParseInt(Substring(hex, 0, 2), 16);
    var green := ParseInt(Substring(hex, 2, 4), 16);
    var blue := ParseInt(Substring(hex, 4, 6), 16);
    "#" + HexText(Lighten(red)) + HexText(Lighten(green)) + HexText(Lighten(blue))
  }

  /** A colour written `#rrggbb` with hexadecimal digits of either case. */
  predicate IsHexColor(c: string) {
    |c| == 7 && c[0] == '#' && AllDigits(c[1..], 16)
  }

  /** Where channel `i` (0 red, 1 green, 2 blue) starts once the '#' is dropped. */
  function Offset(i: nat): (at: nat)
    requires i < 3
    ensures at + 2 <= 6
  {
    if i == 0 then 0 else if i == 1 then 2 else 4
  }

  /** Channel `i` (0 red, 1 green, 2 blue) of a `#rrggbb` colour. */
  function Channel(c: string, i: nat): (v: nat)
    requires IsHexColor(c) && i < 3
    ensures v <= 255
  {
    var d := c[1 + Offset(i)..3 + Offset(i)];
    assert AllDigits(d, 16) by {
      forall k | 0 <= k < 2 ensures IsDigitIn(d[k], 16) {
        assert d[k] == c[1..][Offset(i) + k];
      }
    }
    PairBound(d);
    DigitsValue(d, 16)
  }

  /** Two hexadecimal digits denote at most 255. */
  lemma PairBound(d: string)
    requires |d| == 2 && AllDigits(d, 16)
    ensures DigitsValue(d, 16) <= 255
  {
    assert d[..1][..0] == [];
    var hi, lo := DigitValue(d[0]), DigitValue(d[1]);
    assert IsDigitIn(d[0], 16) && IsDigitIn(d[1], 16);
    assert DigitsValue(d[..1], 16) == DigitsValue(d[..1][..0], 16) * 16 + hi;
    assert DigitsValue(d, 16) == hi * 16 + lo;
    assert hi * 16 <= 15 * 16;
  }

  /** `parseInt` in base 16 reads a non-empty string of hexadecimal digits whole. */
  lemma ParseHexDigits(d: string)
    requires |d| >= 1 && AllDigits(d, 16)
    ensures ParseInt(d, 16) == Some(DigitsValue(d, 16))
  {
    DigitIsPlain(d[0], 16);
    assert TrimStart(d) == d;
    ParseUnsignedOfDigits(d, 16, 16);
  }

  /** A channel value is written as exactly two hexadecimal digits that read back as it. */
  lemma HexTextPair(v: int)
    requires 0 <= v <= 255
    ensures var t := HexText(Some(v));
      |t| == 2 && AllDigits(t, 16) && DigitsValue(t, 16) == v
  {
    var s := NatToString(v, 16);
    if v < 16 {
      assert s == [DigitChar(v)];
      var t := PadStart(s, 2, '0');
      assert t == ['0'] + s;
      assert t[..1] == ['0'] && t[..1][..0] == [];
      assert IsDigitIn(t[0], 16) && IsDigitIn(t[1], 16);
    } else {
      DivStep(v, 16);
      assert NatToString(v / 16, 16) == [DigitChar(v / 16)];
      assert |s| == 2;
    }
  }

  /** Lightening a `#rrggbb` colour gives a `#rrggbb` colour whose every channel
      is the original one plus 40, capped at 255. */
  lemma LighterColorChannels(c: string)
    requires IsHexColor(c)
    ensures IsHexColor(LighterColor(c))
    ensures Channel(LighterColor(c), 0) == MinInt(255, Channel(c, 0) + 40)
    ensures Channel(LighterColor(c), 1) == MinInt(255, Channel(c, 1) + 40)
    ensures Channel(LighterColor(c), 2) == MinInt(255, Channel(c, 2) + 40)
  {
    var hex := c[1..];
    assert RemoveFirst(c, '#') == hex;
    var t0 := LightChannel(c, hex, 0, 0, 2);
    var t1 := LightChannel(c, hex, 1, 2, 4);
    var t2 := LightChannel(c, hex, 2, 4, 6);
    LighterColorText(c, hex, t0, t1, t2);
    ColorOfPairs(t0, t1, t2);
  }

  /** A colour with fewer than six hex characters, such as the shorthand
      `#fff`, leaves the blue channel NaN, and the result ends in "NaN". */
  lemma ShortColor(color: string)
    requires |RemoveFirst(color, '#')| <= 4
    ensures var r := LighterColor(color); r[|r| - 3..] == "NaN"
  {
    var hex := RemoveFirst(color, '#');
    assert Substring(hex, 4, 6) == [];
    assert TrimStart([]) == [];
    assert ParseInt([], 16).None?;
  }

  /** `getLighterColor` is the '#' and the three channel texts. */
  lemma LighterColorText(c: string, hex: string, t0: string, t1: string, t2: string)
    requires RemoveFirst(c, '#') == hex
    requires t0 == HexText(Lighten(ParseInt(Substring(hex, 0, 2), 16)))
    requires t1 == HexText(Lighten(ParseInt(Substring(hex, 2, 4), 16)))
    requires t2 == HexText(Lighten(ParseInt(Substring(hex, 4, 6), 16)))
    ensures LighterColor(c) == "#" + t0 + t1 + t2
  {
  }

  /** Channel `i` of the lightened colour is written as two hexadecimal
      digits denoting the original channel plus 40, capped at 255. */
  lemma LightChannel(c: string, hex: string, i: nat, at: nat, end: nat) returns (t: string)
    requires IsHexColor(c) && hex == c[1..] && i < 3 && at == Offset(i) && end == at + 2
    ensures t == HexText(Lighten(ParseInt(Substring(hex, at, end), 16)))
    ensures |t| == 2 && AllDigits(t, 16) && DigitsValue(t, 16) == MinInt(255, Channel(c, i) + 40)
  {
    ChannelRead(c, hex, i, at);
    var w := MinInt(255, Channel(c, i) + 40);
    var y := Lighten(ParseInt(Substring(hex, at, at + 2), 16));
    assert y.Some? && y.value == w;
    HexTextPair(w);
    t := HexText(y);
  }

  /** `parseInt(hex.substring(2i, 2i + 2), 16)` reads channel `i`. */
  lemma ChannelRead(c: string, hex: string, i: nat, at: nat)
    requires IsHexColor(c) && hex == c[1..] && i < 3 && at == Offset(i)
    ensures ParseInt(Substring(hex, at, at + 2), 16) == Some(Channel(c, i))
  {
    var d := hex[at..at + 2];
    assert d == c[1 + at..3 + at];
    assert Substring(hex, at, at + 2) == d;
    assert Channel(c, i) == DigitsValue(d, 16);
    DigitsOf(c, d, 1 + at);
    ParseHexDigits(d);
  }

  /** Three pairs of hexadecimal digits after a '#' make a colour with those channels. */
  lemma ColorOfPairs(t0: string, t1: string, t2: string)
    requires |t0| == 2 && |t1| == 2 && |t2| == 2
    requires AllDigits(t0, 16) && AllDigits(t1, 16) && AllDigits(t2, 16)
    ensures var r := "#" + t0 + t1 + t2;
      IsHexColor(r) && Channel(r, 0) == DigitsValue(t0, 16) &&
      Channel(r, 1) == DigitsValue(t1, 16) && Channel(r, 2) == DigitsValue(t2, 16)
  {
    var r := "#" + t0 + t1 + t2;
    assert r[1..] == t0 + t1 + t2;
    assert AllDigits(r[1..], 16);
    assert r[1..3] == t0 && r[3..5] == t1 && r[5..7] == t2;
  }

  /** The two characters at `at` of a `#rrggbb` colour are hexadecimal digits. */
  lemma DigitsOf(c: string, d: string, at: nat)
    requires IsHexColor(c) && (at == 1 || at == 3 || at == 5) && d == c[at..at + 2]
    ensures |d| == 2 && AllDigits(d, 16)
  {
    assert d[0] == c[1..][at - 1] && d[1] == c[1..][at];
  }
}
