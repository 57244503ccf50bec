/**
 * The colour arithmetic behind the planet textures: `adjustColor` brightens or
 * darkens a `#rrggbb` colour by adding an integer amount to each channel,
 * reading each channel with JavaScript's `parseInt(…, 16)` and writing it back
 * with `toString(16).padStart(2, '0')`; and the planet-name colour table.
 */
module PlanetTexture {
  import opened Wrappers

  function Min(a: int, b: int): int { if a <= b then a else b }
  function Max(a: int, b: int): int { if a >= b then a else b }

  // ---- reading ----

  /** `s.replace('#', '')`: a string pattern replaces only its first occurrence. */
  function Unhash(s: string): (r: string)
    ensures '#' !in s ==> r == s
    ensures |s| > 0 && s[0] == '#' ==> r == s[1..]
  {
    if |s| == 0 then s
    else if s[0] == '#' then s[1..]
    else [s[0]] + Unhash(s[1..])
  }

  /** Wherever the first `#` stands, `Unhash` removes exactly that character and keeps the rest. */
  lemma {:induction false} UnhashFirst(s: string, k: nat)
    requires k < |s| && s[k] == '#' && '#' !in s[..k]
    ensures Unhash(s) == s[..k] + s[k + 1..]
  {
    if k > 0 {
      var t := s[1..];
      assert s[0] == s[..k][0];
      assert t[..k - 1] == s[..k][1..];
      UnhashFirst(t, k - 1);
      assert s[..k] == [s[0]] + t[..k - 1];
      assert s[k + 1..] == t[k..];
    }
  }

  /** `s.substr(start, length)` for a non-negative start and length. */
  function Substr(s: string, start: nat, length: nat): (r: string)
    ensures |r| <= length
    ensures start + length <= |s| ==> r == s[start..start + length]
  {
    var from := if start <= |s| then start else |s|;
    var to := if start + length <= |s| then start + length else |s|;
    s[from..to]
  }

  /** The characters `parseInt` skips before a number: white space and line terminators. */
  predicate IsSpace(c: char) {
    c in {'\t', '\n', '\U{000B}', '\U{000C}', '\r', ' ', '\U{00A0}', '\U{1680}',
          '\U{2000}', '\U{2001}', '\U{2002}', '\U{2003}', '\U{2004}', '\U{2005}',
          '\U{2006}', '\U{2007}', '\U{2008}', '\U{2009}', '\U{200A}', '\U{2028}',
          '\U{2029}', '\U{202F}', '\U{205F}', '\U{3000}', '\U{FEFF}'}
  }

  function TrimStart(s: string): (r: string)
    ensures |r| <= |s| && r == s[|s| - |r|..]
    ensures |r| > 0 ==> !IsSpace(r[0])
  {
    if |s| > 0 && IsSpace(s[0]) then TrimStart(s[1..]) else s
  }

  /** The value of a hexadecimal digit of either case. */
  function DigitValue(c: char): Option<nat> {
    if '0' <= c <= '9' then Some(c as int - '0' as int)
    else if 'a' <= c <= 'f' then Some(c as int - 'a' as int + 10)
    else if 'A' <= c <= 'F' then Some(c as int - 'A' as int + 10)
    else None
  }

  /** The longest prefix of `s` made of hexadecimal digits. */
  function DigitRun(s: string): (r: string)
    ensures |r| <= |s| && r == s[..|r|]
    ensures forall i :: 0 <= i < |r| ==> DigitValue(r[i]).Some?
  {
    if |s| > 0 && DigitValue(s[0]).Some? then [s[0]] + DigitRun(s[1..]) else []
  }

  /** The number a run of hexadecimal digits spells, most significant first. */
  function RunValue(digits: string): nat
    requires forall i :: 0 <= i < |digits| ==> DigitValue(digits[i]).Some?
  {
    if |digits| == 0 then 0
    else RunValue(digits[..|digits| - 1]) * 16 + DigitValue(digits[|digits| - 1]).value
  }

  /**
   * `parseInt(s, 16)`: skip leading white space, take an optional sign, then an
   * optional `0x`/`0X` prefix, then the longest run of hexadecimal digits.
   * No digits at all is `NaN`, written `None`.
   */
  function ParseHex(s: string): Option<int> {
    var t := TrimStart(s);
    var negative := |t| > 0 && t[0] == '-';
    var unsigned := if |t| > 0 && (t[0] == '-' || t[0] == '+') then t[1..] else t;
    var body := if |unsigned| >= 2 && unsigned[0] == '0' && (unsigned[1] == 'x' || unsigned[1] == 'X')
      then unsigned[2..] else unsigned;
    var digits := DigitRun(body);
    if |digits| == 0 then None
    else
      var value: int := RunValue(digits);
      Some(if negative then -value else value)
  }

  // ---- writing ----

  function LowerDigit(d: nat): (c: char)
    requires d < 16
    ensures DigitValue(c) == Some(d)
  {
    if d < 10 then ('0' as int + d) as char else ('a' as int + d - 10) as char
  }

  predicate IsLowerHexDigit(c: char) { '0' <= c <= '9' || 'a' <= c <= 'f' }

  /** `n.toString(16)`: lowercase digits with no leading zeros. */
  function ToHex(n: nat): (r: string)
    ensures |r| >= 1
    ensures forall i :: 0 <= i < |r| ==> IsLowerHexDigit(r[i])
    decreases n
  {
    if n < 16 then [LowerDigit(n)] else ToHex(n / 16) + [LowerDigit(n % 16)]
  }

  /** `s.padStart(2, '0')` */
  function PadTwo(s: string): (r: string)
    ensures |s| >= 2 ==> r == s
    ensures |s| < 2 ==> |r| == 2 && r[2 - |s|..] == s
  {
    if |s| == 0 then "00" else if |s| == 1 then "0" + s else s
  }

  // ---- adjustColor ----

  /**
   * One channel: the parsed value plus `amount`, clamped into [0, 255];
   * `NaN` stays `NaN` through the addition and both clamps.
   */
  function Brighten(parsed: Option<int>, amount: int): (r: Option<int>)
    ensures r.Some? <==> parsed.Some?
    ensures r.Some? ==> 0 <= r.value <= 255
    ensures r.Some? && 0 <= parsed.value + amount <= 255 ==> r.value == parsed.value + amount
  {
    match parsed
    case None => None
    case Some(v) => Some(Max(0, Min(255, v + amount)))
  }

  /** A channel as text: two lowercase hex digits, or `NaN`. */
  function ChannelText(ch: Option<int>): string
    requires ch.Some? ==> 0 <= ch.value
  {
    match ch
    case None => "NaN"
    case Some(v) => PadTwo(ToHex(v))
  }

  /** Channel `i` of the digits `hex` (starting at offset `2·i`), adjusted and written back. */
  function ChannelAt(hex: string, i: nat, amount: int): string {
    ChannelText(Brighten(ParseHex(Substr(hex, 2 * i, 2)), amount))
  }

  function Join(r: string, g: string, b: string): string { "#" + r + g + b }

  function AdjustColor(color: string, amount: int): string {
    var hex := Unhash(color);
    Join(ChannelAt(hex, 0, amount), ChannelAt(hex, 1, amount), ChannelAt(hex, 2, amount))
  }

  /** Two lowercase hex digits. */
  predicate IsHexPair(s: string) {
    |s| == 2 && IsLowerHexDigit(s[0]) && IsLowerHexDigit(s[1])
  }

  /** A `#rrggbb` colour written with lowercase digits. */
  predicate IsHexColor(s: string) {
    |s| == 7 && s[0] == '#' && forall i :: 1 <= i < 7 ==> IsLowerHexDigit(s[i])
  }

  // ---- properties ----

  lemma ToHexSmall(n: nat)
    requires n < 256
    ensures |ToHex(n)| <= 2
  {
    if n >= 16 {
      assert n / 16 < 16;
    }
  }

  /** A value in [0, 255] is written as exactly two lowercase hex digits. */
  lemma ChannelTextTwoDigits(v: int)
    requires 0 <= v <= 255
    ensures IsHexPair(ChannelText(Some(v)))
  {
    ToHexSmall(v);
  }

  /** Three pairs of lowercase hex digits after a `#` make a lowercase `#rrggbb` colour. */
  lemma JoinIsHexColor(r: string, g: string, b: string)
    requires IsHexPair(r) && IsHexPair(g) && IsHexPair(b)
    ensures IsHexColor(Join(r, g, b))
  {
    var s := Join(r, g, b);
    assert s == ['#', r[0], r[1], g[0], g[1], b[0], b[1]];
  }

  /** A lowercase colour is `#` followed by its three channel pairs, which `adjustColor` reads back. */
  lemma SplitColor(color: string)
    requires IsHexColor(color)
    ensures Unhash(color) == color[1..]
    ensures Substr(color[1..], 0, 2) == color[1..3]
    ensures Substr(color[1..], 2, 2) == color[3..5]
    ensures Substr(color[1..], 4, 2) == color[5..7]
    ensures IsHexPair(color[1..3]) && IsHexPair(color[3..5]) && IsHexPair(color[5..7])
    ensures color == Join(color[1..3], color[3..5], color[5..7])
  {
    assert color == ['#', color[1], color[2], color[3], color[4], color[5], color[6]];
  }

  /** When every channel parses, the result is `#` and six lowercase hex digits. */
  lemma AdjustedIsHexColor(color: string, amount: int)
    requires var hex := Unhash(color);
      && ParseHex(Substr(hex, 0, 2)).Some?
      && ParseHex(Substr(hex, 2, 2)).Some?
      && ParseHex(Substr(hex, 4, 2)).Some?
    ensures IsHexColor(AdjustColor(color, amount))
  {
    var hex := Unhash(color);
    ChannelTextTwoDigits(Brighten(ParseHex(Substr(hex, 0, 2)), amount).value);
    ChannelTextTwoDigits(Brighten(ParseHex(Substr(hex, 2, 2)), amount).value);
    ChannelTextTwoDigits(Brighten(ParseHex(Substr(hex, 4, 2)), amount).value);
    JoinIsHexColor(ChannelAt(hex, 0, amount), ChannelAt(hex, 1, amount), ChannelAt(hex, 2, amount));
  }

  /** Each channel is non-decreasing in `amount`. */
  lemma BrightenMonotone(parsed: Option<int>, a: int, b: int)
    requires a <= b && parsed.Some?
    ensures Brighten(parsed, a).value <= Brighten(parsed, b).value
  {
  }

  lemma LowerDigitNotSpace(c: char)
    requires IsLowerHexDigit(c)
    ensures !IsSpace(c) && c != '-' && c != '+' && c != 'x' && c != 'X'
  {
  }

  /** Two lowercase hex digits parse to the number they spell. */
  lemma ParsePair(s: string)
    requires IsHexPair(s)
    ensures ParseHex(s) == Some(DigitValue(s[0]).value * 16 + DigitValue(s[1]).value)
  {
    LowerDigitNotSpace(s[0]);
    LowerDigitNotSpace(s[1]);
    assert TrimStart(s) == s;
    assert DigitRun(s[2..]) == [];
    assert DigitRun(s[1..]) == [s[1]] + DigitRun(s[2..]);
    assert DigitRun(s) == s;
    assert RunValue(s) == RunValue(s[..1]) * 16 + DigitValue(s[1]).value;
    assert RunValue(s[..1]) == DigitValue(s[0]).value by {
      assert s[..1][..0] == [];
    }
  }

  lemma LowerDigitOf(c: char)
    requires IsLowerHexDigit(c)
    ensures DigitValue(c).Some? && DigitValue(c).value < 16
    ensures LowerDigit(DigitValue(c).value) == c
  {
  }

  /** Writing back the value of two lowercase hex digits gives the same two digits. */
  lemma FormatPair(s: string)
    requires IsHexPair(s)
    ensures ChannelText(Some(DigitValue(s[0]).value * 16 + DigitValue(s[1]).value)) == s
  {
    var hi := DigitValue(s[0]).value;
    var lo := DigitValue(s[1]).value;
    LowerDigitOf(s[0]);
    LowerDigitOf(s[1]);
    var n := hi * 16 + lo;
    if hi == 0 {
      assert ToHex(n) == [LowerDigit(lo)];
      assert s[0] == '0';
    } else {
      assert n / 16 == hi && n % 16 == lo;
      assert ToHex(n) == [LowerDigit(hi)] + [LowerDigit(lo)];
    }
  }

  /** One channel of a lowercase colour survives reading and writing unchanged. */
  lemma ChannelRoundTrip(s: string)
    requires IsHexPair(s)
    ensures ParseHex(s).Some? && 0 <= ParseHex(s).value <= 255
    ensures ChannelText(Brighten(ParseHex(s), 0)) == s
  {
    LowerDigitOf(s[0]);
    LowerDigitOf(s[1]);
    var n := DigitValue(s[0]).value * 16 + DigitValue(s[1]).value;
    ParsePair(s);
    FormatPair(s);
  }

  lemma JoinChars(r: string, g: string, b: string)
    requires |r| == 2 && |g| == 2 && |b| == 2
    ensures Join(r, g, b) == ['#', r[0], r[1], g[0], g[1], b[0], b[1]]
  {
  }

  /** 255 is written `ff`. */
  lemma WriteFF()
    ensures ChannelText(Some(255)) == "ff"
  {
    assert LowerDigit(15) == 'f';
    assert ToHex(15) == [LowerDigit(15)];
    assert ToHex(255) == ToHex(15) + [LowerDigit(15)];
  }

  /** 0 is written `00`. */
  lemma WriteZero()
    ensures ChannelText(Some(0)) == "00"
  {
    assert LowerDigit(0) == '0';
    assert ToHex(0) == "0";
  }

  /** `adjustColor` on a lowercase colour works on its three channel pairs. */
  lemma AdjustSplit(color: string, amount: int)
    requires IsHexColor(color)
    ensures AdjustColor(color, amount) == Join(
      ChannelText(Brighten(ParseHex(color[1..3]), amount)),
      ChannelText(Brighten(ParseHex(color[3..5]), amount)),
      ChannelText(Brighten(ParseHex(color[5..7]), amount)))
  {
    SplitColor(color);
  }

  /** A channel value pushed 255 or more either way saturates at `ff` or `00`. */
  lemma SaturatedChannel(parsed: Option<int>, amount: int)
    requires parsed.Some? && 0 <= parsed.value <= 255
    ensures amount >= 255 ==> ChannelText(Brighten(parsed, amount)) == "ff"
    ensures amount <= -255 ==> ChannelText(Brighten(parsed, amount)) == "00"
  {
    if amount >= 255 {
      WriteFF();
    } else if amount <= -255 {
      WriteZero();
    }
  }

  /** Adjusting a lowercase `#rrggbb` colour by 0 gives the colour back. */
  lemma AdjustByZero(color: string)
    requires IsHexColor(color)
    ensures AdjustColor(color, 0) == color
  {
    AdjustSplit(color, 0);
    SplitColor(color);
    ChannelRoundTrip(color[1..3]);
    ChannelRoundTrip(color[3..5]);
    ChannelRoundTrip(color[5..7]);
  }

  /** Adding 255 or more saturates every channel of a lowercase colour: white. */
  lemma AdjustToWhite(color: string, amount: int)
    requires IsHexColor(color) && amount >= 255
    ensures AdjustColor(color, amount) == "#ffffff"
  {
    AdjustSplit(color, amount);
    SplitColor(color);
    ChannelRoundTrip(color[1..3]);
    SaturatedChannel(ParseHex(color[1..3]), amount);
    ChannelRoundTrip(color[3..5]);
    SaturatedChannel(ParseHex(color[3..5]), amount);
    ChannelRoundTrip(color[5..7]);
    SaturatedChannel(ParseHex(color[5..7]), amount);
    JoinChars("ff", "ff", "ff");
  }

  /** Subtracting 255 or more empties every channel of a lowercase colour: black. */
  lemma AdjustToBlack(color: string, amount: int)
    requires IsHexColor(color) && amount <= -255
    ensures AdjustColor(color, amount) == "#000000"
  {
    AdjustSplit(color, amount);
    SplitColor(color);
    ChannelRoundTrip(color[1..3]);
    SaturatedChannel(ParseHex(color[1..3]), amount);
    ChannelRoundTrip(color[3..5]);
    SaturatedChannel(ParseHex(color[3..5]), amount);
    ChannelRoundTrip(color[5..7]);
    SaturatedChannel(ParseHex(color[5..7]), amount);
    JoinChars("00", "00", "00");
  }

  // ---- getPlanetTexture ----

  /** The base colour of a planet's texture; any other name is white. */
  function PlanetColor(planet: string): string {
    if planet == "mercury" then "#8c7664"
    else if planet == "venus" then "#e6b87c"
    else if planet == "earth" then "#4b67ab"
    else if planet == "mars" then "#c1440e"
    else if planet == "jupiter" then "#b8956c"
    else if planet == "saturn" then "#edca7c"
    else if planet == "uranus" then "#b1d9e3"
    else if planet == "neptune" then "#3d66cf"
    else "#ffffff"
  }

  const Planets: seq<string> := ["mercury", "venus", "earth", "mars", "jupiter", "saturn", "uranus", "neptune"]

  /** Every entry of the table is a lowercase `#rrggbb` colour; the eight planets are the only names that are not white. */
  lemma PlanetTable(planet: string)
    ensures IsHexColor(PlanetColor(planet))
    ensures planet in Planets <==> PlanetColor(planet) != "#ffffff"
  {
    if planet in Planets {
      assert PlanetColor(planet)[1] != 'f';
    } else {
      assert planet != Planets[0] && planet != Planets[1] && planet != Planets[2] && planet != Planets[3];
      assert planet != Planets[4] && planet != Planets[5] && planet != Planets[6] && planet != Planets[7];
    }
  }

  /**
   * The gradient of `createColorTexture` runs from a planet's colour to
   * `adjustColor(color, -20)`, which is a lowercase `#rrggbb` colour as well;
   * adjusting by 0 leaves the colour as it is.
   */
  lemma PlanetGradient(planet: string)
    ensures IsHexColor(AdjustColor(PlanetColor(planet), -20))
    ensures AdjustColor(PlanetColor(planet), 0) == PlanetColor(planet)
  {
    var color := PlanetColor(planet);
    PlanetTable(planet);
    SplitColor(color);
    ChannelRoundTrip(color[1..3]);
    ChannelRoundTrip(color[3..5]);
    ChannelRoundTrip(color[5..7]);
    AdjustedIsHexColor(color, -20);
    AdjustByZero(color);
  }

  lemma PlanetColorsDistinct(i: nat, j: nat)
    requires i < j < |Planets|
    ensures PlanetColor(Planets[i]) != PlanetColor(Planets[j])
  {
  }
}
