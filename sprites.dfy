/**
 * The computational part of sprites.js: the four theme palettes, the
 * `THEMES[theme] || THEMES.istanbul` lookup the drawing entry points share,
 * and `lerpColor`, which blends two `#RRGGBB` colours channel by channel
 * into an `rgb(r,g,b)` string. Canvas drawing itself is outside the model.
 */
module Sprites {
  import opened Wrappers

  // ---------------- palettes ----------------

  /** One entry of `THEMES`: twelve `#RRGGBB` colours. */
  datatype Palette = Palette(sky1: string, sky2: string,
                             ground: string, groundDark: string, groundTop: string,
                             platform: string, platformTop: string, platformDark: string,
                             bgFar: string, bgMid: string, bgNear: string,
                             accent: string)

  const IstanbulPalette: Palette := Palette("#1A0A3E", "#FF6644",
    "#7A6B5A", "#5A4B3A", "#9A8B7A",
    "#8B7355", "#A89070", "#6B5335",
    "#2D1B4E", "#4A2D6E", "#553311",
    "#FFD700")

  const BakuPalette: Palette := Palette("#0A1628", "#1A3A6E",
    "#5A6B7A", "#3A4B5A", "#7A8B9A",
    "#4A5A6A", "#6A7A8A", "#3A4A5A",
    "#0D1F3C", "#1A3058", "#2A4070",
    "#FF4444")

  const CappadociaPalette: Palette := Palette("#FF7744", "#FFD488",
    "#C4956A", "#A47B50", "#DEB08A",
    "#B8956A", "#D4B08A", "#987B50",
    "#E8B080", "#D09060", "#B87850",
    "#FF4466")

  const SkyPalette: Palette := Palette("#0B0B3B", "#1A1A6B",
    "#DDA0DD", "#BA55D3", "#EE82EE",
    "#9370DB", "#B19CD9", "#7B56C0",
    "#191970", "#000080", "#4B0082",
    "#FFD700")

  /** `THEMES[theme] || THEMES.istanbul`: the palette of a known theme, `istanbul`'s for any other name. */
  function ThemeFor(theme: string): (p: Palette)
    ensures theme == "istanbul" ==> p == IstanbulPalette
    ensures theme == "baku" ==> p == BakuPalette
    ensures theme == "cappadocia" ==> p == CappadociaPalette
    ensures theme == "sky" ==> p == SkyPalette
    ensures theme !in {"istanbul", "baku", "cappadocia", "sky"} ==> p == IstanbulPalette
  {
    if theme == "baku" then BakuPalette
    else if theme == "cappadocia" then CappadociaPalette
    else if theme == "sky" then SkyPalette
    else IstanbulPalette
  }

  // ---------------- hexadecimal channels ----------------

  /** The value of one hexadecimal digit, either case; `None` for any other character. */
  function HexDigit(c: char): (d: Option<int>)
    ensures d.Some? ==> 0 <= d.value < 16
  {
    if '0' <= c <= '9' then Some(c as int - '0' as int)
    else if 'a' <= c <= 'f' then Some(c as int - 'a' as int + 10)
    else if 'A' <= c <= 'F' then Some(c as int - 'A' as int + 10)
    else None
  }

  /** Length of the run of hexadecimal digits `s` starts with. */
  function HexRun(s: string): (n: nat)
    ensures n <= |s|
    ensures forall i :: 0 <= i < n ==> HexDigit(s[i]).Some?
    ensures n < |s| ==> HexDigit(s[n]).None?
  {
    if s == [] || HexDigit(s[0]).None? then 0 else 1 + HexRun(s[1..])
  }

  /** The number a string of hexadecimal digits spells, most significant first. */
  function HexValue(s: string): (v: nat)
    requires forall i :: 0 <= i < |s| ==> HexDigit(s[i]).Some?
  {
    if s == [] then 0 else 16 * HexValue(s[..|s| - 1]) + HexDigit(s[|s| - 1]).value
  }

  /** `parseInt(s, 16)`: the value of the leading hex digits; `None` (NaN) when there are none. */
  function ParseHex(s: string): (r: Option<nat>)
    ensures r.None? <==> (s == [] || HexDigit(s[0]).None?)
  {
    var n := HexRun(s);
    if n == 0 then None else Some(HexValue(s[..n]))
  }

  /** `s.slice(lo, hi)` for `0 <= lo <= hi`: indices past the end are clipped. */
  function Slice(s: string, lo: nat, hi: nat): (r: string)
    requires lo <= hi
    ensures hi <= |s| ==> r == s[lo..hi]
  {
    var a := if lo < |s| then lo else |s|;
    var b := if hi < |s| then hi else |s|;
    s[a..b]
  }

  /** A well-formed `#RRGGBB` colour. */
  predicate ValidColor(c: string)
  {
    |c| == 7 && c[0] == '#' && forall i :: 1 <= i < 7 ==> HexDigit(c[i]).Some?
  }

  /** The red, green and blue channels of a colour string, as `lerpColor` reads them. */
  function Channels(c: string): (Option<nat>, Option<nat>, Option<nat>)
  {
    (ParseHex(Slice(c, 1, 3)), ParseHex(Slice(c, 3, 5)), ParseHex(Slice(c, 5, 7)))
  }

  /** Two hex digits of a well-formed colour make one channel in [0, 255]. */
  lemma TwoDigits(s: string)
    requires |s| == 2 && HexDigit(s[0]).Some? && HexDigit(s[1]).Some?
    ensures ParseHex(s) == Some(16 * HexDigit(s[0]).value + HexDigit(s[1]).value)
    ensures 0 <= ParseHex(s).value <= 255
  {
    assert HexRun(s[1..]) == 1 by {
      assert s[1..][1..] == [];
    }
    assert HexRun(s) == 2;
    assert s[..2] == s && s[..2][..1] == s[..1] && s[..1][..0] == [];
    assert HexValue(s[..1]) == HexDigit(s[0]).value;
  }

  /** Every channel of a well-formed colour is present and within [0, 255]. */
  lemma ValidChannels(c: string)
    requires ValidColor(c)
    ensures Channels(c).0.Some? && Channels(c).0.value <= 255
    ensures Channels(c).1.Some? && Channels(c).1.value <= 255
    ensures Channels(c).2.Some? && Channels(c).2.value <= 255
  {
    TwoDigits(c[1..3]);
    TwoDigits(c[3..5]);
    TwoDigits(c[5..7]);
  }

  /** The uppercase hex digit of `d`. */
  function HexChar(d: int): char
    requires 0 <= d < 16
  {
    "0123456789ABCDEF"[d]
  }

  /** `#RRGGBB` for three channels in [0, 255]. */
  function HexColor(r: int, g: int, b: int): (c: string)
    requires 0 <= r < 256 && 0 <= g < 256 && 0 <= b < 256
  {
    ['#', HexChar(r / 16), HexChar(r % 16), HexChar(g / 16), HexChar(g % 16), HexChar(b / 16), HexChar(b % 16)]
  }

  lemma HexCharDigit(d: int)
    requires 0 <= d < 16
    ensures HexDigit(HexChar(d)) == Some(d)
  {
  }

  /** Two uppercase hex digits read back as the channel they were written from. */
  lemma ChannelRoundTrip(v: int)
    requires 0 <= v < 256
    ensures ParseHex([HexChar(v / 16), HexChar(v % 16)]) == Some(v)
  {
    HexCharDigit(v / 16);
    HexCharDigit(v % 16);
    TwoDigits([HexChar(v / 16), HexChar(v % 16)]);
  }

  /** The colour written from three channels is well-formed. */
  lemma HexColorValid(r: int, g: int, b: int)
    requires 0 <= r < 256 && 0 <= g < 256 && 0 <= b < 256
    ensures ValidColor(HexColor(r, g, b))
  {
    var c := HexColor(r, g, b);
    HexCharDigit(r / 16); HexCharDigit(r % 16);
    HexCharDigit(g / 16); HexCharDigit(g % 16);
    HexCharDigit(b / 16); HexCharDigit(b % 16);
    ColorValid(c);
  }

  /** Writing channels as a colour and reading them back gives the same channels. */
  lemma HexColorRoundTrip(r: int, g: int, b: int)
    requires 0 <= r < 256 && 0 <= g < 256 && 0 <= b < 256
    ensures ValidColor(HexColor(r, g, b))
    ensures Channels(HexColor(r, g, b)) == (Some(r), Some(g), Some(b))
  {
    HexColorValid(r, g, b);
    var c := HexColor(r, g, b);
    ChannelRoundTrip(r);
    ChannelRoundTrip(g);
    ChannelRoundTrip(b);
    assert Slice(c, 1, 3) == [HexChar(r / 16), HexChar(r % 16)];
    assert Slice(c, 3, 5) == [HexChar(g / 16), HexChar(g % 16)];
    assert Slice(c, 5, 7) == [HexChar(b / 16), HexChar(b % 16)];
  }

  // ---------------- decimal output ----------------

  /** The decimal digits of a natural number, as JavaScript writes it. */
  function NatToString(n: nat): (s: string)
    ensures |s| >= 1
    ensures forall i :: 0 <= i < |s| ==> '0' <= s[i] <= '9'
  {
    if n < 10 then ["0123456789"[n]] else NatToString(n / 10) + ["0123456789"[n % 10]]
  }

  /** An integer in decimal, with a leading `-` when negative. */
  function IntToString(n: int): string
  {
    if n < 0 then "-" + NatToString(-n) else NatToString(n)
  }

  /** The number a string of decimal digits spells. */
  function DecimalValue(s: string): nat
    requires forall i :: 0 <= i < |s| ==> '0' <= s[i] <= '9'
  {
    if s == [] then 0 else 10 * DecimalValue(s[..|s| - 1]) + (s[|s| - 1] as int - '0' as int)
  }

  /** Reading the decimal form back gives the number. */
  lemma {:induction false} NatToStringRoundTrip(n: nat)
    ensures DecimalValue(NatToString(n)) == n
  {
    if n >= 10 {
      var s := NatToString(n);
      NatToStringRoundTrip(n / 10);
      assert s[..|s| - 1] == NatToString(n / 10);
    }
  }

  /** A channel as a string: `NaN` when a slice held no hex digit. */
  function ShowChannel(c: Option<int>): string
  {
    if c.None? then "NaN" else IntToString(c.value)
  }

  // ---------------- lerpColor ----------------

  /** `Math.round`: the nearest integer, halves rounded up. */
  function Round(x: real): (n: int)
    ensures x - 0.5 < n as real <= x + 0.5
  {
    (x + 0.5).Floor
  }

  /** One blended channel; NaN in, NaN out. */
  function LerpChannel(a: Option<nat>, b: Option<nat>, t: real): Option<int>
  {
    if a.None? || b.None? then None
    else Some(Round(a.value as real + (b.value as real - a.value as real) * t))
  }

  /** The three blended channels of `lerpColor(c1, c2, t)`. */
  function LerpChannels(c1: string, c2: string, t: real): (Option<int>, Option<int>, Option<int>)
  {
    var (r1, g1, b1) := Channels(c1);
    var (r2, g2, b2) := Channels(c2);
    (LerpChannel(r1, r2, t), LerpChannel(g1, g2, t), LerpChannel(b1, b2, t))
  }

  /** `rgb(r,g,b)`. */
  function Rgb(r: Option<int>, g: Option<int>, b: Option<int>): string
  {
    "rgb(" + ShowChannel(r) + "," + ShowChannel(g) + "," + ShowChannel(b) + ")"
  }

  /** `lerpColor(c1, c2, t)`. */
  function LerpColor(c1: string, c2: string, t: real): string
  {
    var (r, g, b) := LerpChannels(c1, c2, t);
    Rgb(r, g, b)
  }

  /** `a + (b - a) * t`, the unrounded blend of two channels. */
  function Blend(a: real, b: real, t: real): real
  {
    a + (b - a) * t
  }

  lemma MulNonNegative(x: real, y: real)
    requires x >= 0.0 && y >= 0.0
    ensures x * y >= 0.0
  {
  }

  lemma BlendUp(a: real, b: real, t: real)
    requires a <= b && 0.0 <= t <= 1.0
    ensures a <= Blend(a, b, t) <= b
  {
    var d := b - a;
    MulNonNegative(d, t);
    MulNonNegative(d, 1.0 - t);
    assert d * t + d * (1.0 - t) == d;
    assert Blend(a, b, t) == a + d * t;
  }

  lemma BlendDown(a: real, b: real, t: real)
    requires b <= a && 0.0 <= t <= 1.0
    ensures b <= Blend(a, b, t) <= a
  {
    var d := a - b;
    MulNonNegative(d, t);
    MulNonNegative(d, 1.0 - t);
    assert d * t + d * (1.0 - t) == d;
    assert (b - a) * t == -(d * t);
    assert Blend(a, b, t) == a - d * t;
  }

  /** A blended channel starts at `a` (t = 0) and ends at `b` (t = 1). */
  lemma LerpChannelEnds(a: nat, b: nat)
    ensures LerpChannel(Some(a), Some(b), 0.0) == Some(a)
    ensures LerpChannel(Some(a), Some(b), 1.0) == Some(b)
  {
  }

  /** For t in [0, 1] a blended channel stays between the two channels. */
  lemma LerpChannelBetween(a: nat, b: nat, t: real)
    requires 0.0 <= t <= 1.0
    ensures var r := LerpChannel(Some(a), Some(b), t).value;
      (a <= b ==> a <= r <= b) && (b <= a ==> b <= r <= a)
  {
    var x := Blend(a as real, b as real, t);
    assert LerpChannel(Some(a), Some(b), t).value == Round(x);
    if a <= b {
      BlendUp(a as real, b as real, t);
    } else {
      BlendDown(a as real, b as real, t);
    }
  }

  /**
   * Between two well-formed colours with t in [0, 1], every channel is a
   * number within [0, 255] lying between the two colours' channels; t = 0
   * and t = 1 give the colours' own channels.
   */
  lemma LerpColorInRange(c1: string, c2: string, t: real)
    requires ValidColor(c1) && ValidColor(c2) && 0.0 <= t <= 1.0
    ensures var (r, g, b) := LerpChannels(c1, c2, t);
      && r.Some? && 0 <= r.value <= 255
      && g.Some? && 0 <= g.value <= 255
      && b.Some? && 0 <= b.value <= 255
    ensures LerpChannels(c1, c2, 0.0) == Channels(c1)
    ensures LerpChannels(c1, c2, 1.0) == Channels(c2)
  {
    ValidChannels(c1);
    ValidChannels(c2);
    var (r1, g1, b1) := Channels(c1);
    var (r2, g2, b2) := Channels(c2);
    LerpChannelEnds(r1.value, r2.value);
    LerpChannelEnds(g1.value, g2.value);
    LerpChannelEnds(b1.value, b2.value);
    LerpChannelBetween(r1.value, r2.value, t);
    LerpChannelBetween(g1.value, g2.value, t);
    LerpChannelBetween(b1.value, b2.value, t);
  }

  /** An `rgb(...)` whose red channel is NaN starts with `rgb(NaN,`. */
  lemma RgbNaNPrefix(g: Option<int>, b: Option<int>)
    ensures "rgb(NaN," <= Rgb(None, g, b)
  {
    var rest := ShowChannel(g) + "," + ShowChannel(b) + ")";
    RgbNaNSplit(g, b);
    assert ("rgb(NaN," + rest)[..8] == "rgb(NaN,";
  }

  lemma RgbNaNSplit(g: Option<int>, b: Option<int>)
    ensures Rgb(None, g, b) == "rgb(NaN," + (ShowChannel(g) + "," + ShowChannel(b) + ")")
  {
    assert "rgb(" + ShowChannel(None) + "," == "rgb(NaN,";
  }

  /** A slice without a leading hex digit gives NaN, which `lerpColor` prints as is. */
  lemma NaNChannelShows(c1: string, c2: string, t: real)
    requires |c1| >= 2 && HexDigit(c1[1]).None?
    ensures LerpChannels(c1, c2, t).0.None?
    ensures "rgb(NaN," <= LerpColor(c1, c2, t)
  {
    assert Slice(c1, 1, 3)[0] == c1[1];
    var (r, g, b) := LerpChannels(c1, c2, t);
    RgbNaNPrefix(g, b);
  }

  predicate PaletteValid(p: Palette)
  {
    && ValidColor(p.sky1) && ValidColor(p.sky2)
    && ValidColor(p.ground) && ValidColor(p.groundDark) && ValidColor(p.groundTop)
    && ValidColor(p.platform) && ValidColor(p.platformTop) && ValidColor(p.platformDark)
    && ValidColor(p.bgFar) && ValidColor(p.bgMid) && ValidColor(p.bgNear)
    && ValidColor(p.accent)
  }

  /** Every theme name, known or not, resolves to a palette of well-formed colours. */
  lemma ThemesAreValid(theme: string)
    ensures PaletteValid(ThemeFor(theme))
  {
    IstanbulValid();
    BakuValid();
    CappadociaValid();
    SkyValid();
  }

  /** A colour whose six digits are each checked is well-formed. */
  lemma ColorValid(c: string)
    requires |c| == 7 && c[0] == '#'
    requires HexDigit(c[1]).Some? && HexDigit(c[2]).Some? && HexDigit(c[3]).Some?
    requires HexDigit(c[4]).Some? && HexDigit(c[5]).Some? && HexDigit(c[6]).Some?
    ensures ValidColor(c)
  {
  }

  lemma IstanbulValid()
    ensures PaletteValid(IstanbulPalette)
  {
    ColorValid(IstanbulPalette.sky1);
    ColorValid(IstanbulPalette.sky2);
    ColorValid(IstanbulPalette.ground);
    ColorValid(IstanbulPalette.groundDark);
    ColorValid(IstanbulPalette.groundTop);
    ColorValid(IstanbulPalette.platform);
    ColorValid(IstanbulPalette.platformTop);
    ColorValid(IstanbulPalette.platformDark);
    ColorValid(IstanbulPalette.bgFar);
    ColorValid(IstanbulPalette.bgMid);
    ColorValid(IstanbulPalette.bgNear);
    ColorValid(IstanbulPalette.accent);
  }

  lemma BakuValid()
    ensures PaletteValid(BakuPalette)
  {
    ColorValid(BakuPalette.sky1);
    ColorValid(BakuPalette.sky2);
    ColorValid(BakuPalette.ground);
    ColorValid(BakuPalette.groundDark);
    ColorValid(BakuPalette.groundTop);
    ColorValid(BakuPalette.platform);
    ColorValid(BakuPalette.platformTop);
    ColorValid(BakuPalette.platformDark);
    ColorValid(BakuPalette.bgFar);
    ColorValid(BakuPalette.bgMid);
    ColorValid(BakuPalette.bgNear);
    ColorValid(BakuPalette.accent);
  }

  lemma CappadociaValid()
    ensures PaletteValid(CappadociaPalette)
  {
    ColorValid(CappadociaPalette.sky1);
    ColorValid(CappadociaPalette.sky2);
    ColorValid(CappadociaPalette.ground);
    ColorValid(CappadociaPalette.groundDark);
    ColorValid(CappadociaPalette.groundTop);
    ColorValid(CappadociaPalette.platform);
    ColorValid(CappadociaPalette.platformTop);
    ColorValid(CappadociaPalette.platformDark);
    ColorValid(CappadociaPalette.bgFar);
    ColorValid(CappadociaPalette.bgMid);
    ColorValid(CappadociaPalette.bgNear);
    ColorValid(CappadociaPalette.accent);
  }

  lemma SkyValid()
    ensures PaletteValid(SkyPalette)
  {
    ColorValid(SkyPalette.sky1);
    ColorValid(SkyPalette.sky2);
    ColorValid(SkyPalette.ground);
    ColorValid(SkyPalette.groundDark);
    ColorValid(SkyPalette.groundTop);
    ColorValid(SkyPalette.platform);
    ColorValid(SkyPalette.platformTop);
    ColorValid(SkyPalette.platformDark);
    ColorValid(SkyPalette.bgFar);
    ColorValid(SkyPalette.bgMid);
    ColorValid(SkyPalette.bgNear);
    ColorValid(SkyPalette.accent);
  }

  /**
   * The sky gradient of any theme (`lerpColor(t.sky1, t.sky2, ratio)` with
   * ratio in [0, 1]) is an `rgb(...)` of three channels in [0, 255].
   */
  lemma SkyGradientInRange(theme: string, ratio: real)
    requires 0.0 <= ratio <= 1.0
    ensures var p := ThemeFor(theme);
      var (r, g, b) := LerpChannels(p.sky1, p.sky2, ratio);
      && r.Some? && 0 <= r.value <= 255
      && g.Some? && 0 <= g.value <= 255
      && b.Some? && 0 <= b.value <= 255
      && LerpColor(p.sky1, p.sky2, ratio) ==
           "rgb(" + IntToString(r.value) + "," + IntToString(g.value) + "," + IntToString(b.value) + ")"
  {
    ThemesAreValid(theme);
    var p := ThemeFor(theme);
    LerpColorInRange(p.sky1, p.sky2, ratio);
  }
}
