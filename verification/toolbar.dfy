/** The toolbar's _darken_color: a "#rrggbb" colour with each channel
    lowered by an amount and clamped at zero, used for the hover (20) and
    pressed (40) shades of every button. */
module Toolbar {
  import opened Strings

  // -----------------------------------------------------------------------
  // Hexadecimal digits

  predicate IsHexDigit(c: char)
  {
    '0' <= c <= '9' || 'a' <= c <= 'f' || 'A' <= c <= 'F'
  }

  predicate IsHexDigits(s: string)
  {
    forall i :: 0 <= i < |s| ==> IsHexDigit(s[i])
  }

  function HexValue(c: char): (v: nat)
    requires IsHexDigit(c)
    ensures v < 16
  {
    if '0' <= c <= '9' then (c as int - '0' as int) as nat
    else if 'a' <= c <= 'f' then (c as int - 'a' as int + 10) as nat
    else (c as int - 'A' as int + 10) as nat
  }

  /** The lower-case digit of a value below 16. */
  function HexDigit(d: nat): (c: char)
    requires d < 16
    ensures IsHexDigit(c) && HexValue(c) == d
    ensures !('A' <= c <= 'Z')
  {
    "0123456789abcdef"[d]
  }

  function HexDigitsValue(s: string): nat
    requires IsHexDigits(s)
  {
    if |s| == 0 then 0 else HexDigitsValue(s[..|s| - 1]) * 16 + HexValue(s[|s| - 1])
  }

  /** int(s, 16) on the texts the toolbar passes: surrounding whitespace,
      an optional sign, then at least one ASCII hex digit; None otherwise.
      Python also reads a 0x/0X prefix, underscores between digits and
      non-ASCII digits, which are not modelled here. */
  function ParseHex(s: string): (r: Option<int>)
    ensures Strip(s) == "" ==> r.None?
  {
    var t := Strip(s);
    if |t| >= 1 && (t[0] == '+' || t[0] == '-') then
      var d := t[1..];
      if |d| >= 1 && IsHexDigits(d) then
        Some(if t[0] == '-' then -(HexDigitsValue(d) as int) else HexDigitsValue(d) as int)
      else None
    else if |t| >= 1 && IsHexDigits(t) then Some(HexDigitsValue(t))
    else None
  }

  /** The digits of n in base 16, most significant first. */
  function HexNat(n: nat): (s: string)
    ensures |s| >= 1 && IsHexDigits(s)
    ensures forall i :: 0 <= i < |s| ==> !('A' <= s[i] <= 'Z')
    decreases n
  {
    if n < 16 then [HexDigit(n)] else HexNat(n / 16) + [HexDigit(n % 16)]
  }

  /** f'{n:02x}': lower-case hex, padded with a zero to two digits. */
  function FormatHex2(n: nat): (s: string)
    ensures |s| >= 2 && IsHexDigits(s)
    ensures forall i :: 0 <= i < |s| ==> !('A' <= s[i] <= 'Z')
  {
    if n < 16 then ['0', HexDigit(n)] else HexNat(n)
  }

  /** Below 256 the rendering is exactly two digits, high one first. */
  lemma FormatHex2Small(n: nat)
    requires n < 256
    ensures FormatHex2(n) == [HexDigit(n / 16), HexDigit(n % 16)]
  {
    if n >= 16 {
      assert HexNat(n / 16) == [HexDigit(n / 16)];
    }
  }

  /** The value of two hex digits. */
  lemma PairValue(s: string)
    requires |s| == 2 && IsHexDigits(s)
    ensures HexDigitsValue(s) == HexValue(s[0]) * 16 + HexValue(s[1])
  {
    var p := s[..1];
    assert s[..|s| - 1] == p;
    assert p[..|p| - 1] == [];
    assert HexDigitsValue(p) == HexValue(s[0]);
  }

  lemma HexDigitRoundTrip(c: char)
    requires IsHexDigit(c) && !('A' <= c <= 'Z')
    ensures HexDigit(HexValue(c)) == c
  {
  }

  /** Hex digits with no surrounding space are read by int(_, 16) as
      their value. */
  lemma ParseHexOfDigits(s: string)
    requires |s| >= 1 && IsHexDigits(s)
    ensures ParseHex(s) == Some(HexDigitsValue(s) as int)
  {
    assert TrimStart(s) == s by { assert !IsSpace(s[0]); }
    assert TrimEnd(s) == s by { assert !IsSpace(s[|s| - 1]); }
  }

  // -----------------------------------------------------------------------
  // Darkening

  /** max(0, c - amount). */
  function DarkenChannel(c: int, amount: int): (r: nat)
    ensures c >= 0 && amount >= 0 ==> r <= c
    ensures r == 0 || r == c - amount
    ensures r >= c - amount
  {
    if c - amount > 0 then c - amount else 0
  }

  /** Darkening by a and then by b is darkening by a + b. */
  lemma DarkenChannelTwice(c: int, a: nat, b: nat)
    ensures DarkenChannel(DarkenChannel(c, a), b) == DarkenChannel(c, a + b)
  {
  }

  /** Python's s[i:j] for 0 <= i <= j: cut at the end of the string. */
  function Slice(s: string, i: nat, j: nat): (r: string)
    requires i <= j
    ensures |r| <= j - i
  {
    if |s| <= i then "" else if |s| <= j then s[i..] else s[i..j]
  }

  /** The f-string that closes _darken_color. */
  function Render(r: nat, g: nat, b: nat): string
  {
    "#" + FormatHex2(r) + FormatHex2(g) + FormatHex2(b)
  }

  /** _darken_color(hex_color, amount): None where a slice is not a number
      int(_, 16) accepts. */
  function DarkenColor(hex: string, amount: int): (r: Option<string>)
    ensures r.Some? ==> |r.value| >= 7 && r.value[0] == '#'
  {
    var h := LStripChar(hex, '#');
    var r := ParseHex(Slice(h, 0, 2));
    var g := ParseHex(Slice(h, 2, 4));
    var b := ParseHex(Slice(h, 4, 6));
    if r.Some? && g.Some? && b.Some? then
      Some(Render(DarkenChannel(r.value, amount), DarkenChannel(g.value, amount), DarkenChannel(b.value, amount)))
    else None
  }

  /** "#rrggbb" with hex digits of either case. */
  predicate IsColor(s: string)
  {
    |s| == 7 && s[0] == '#' && IsHexDigits(s[1..])
  }

  /** "#rrggbb" in lower case, as Render writes it. */
  predicate IsLowerColor(s: string)
  {
    IsColor(s) && forall i :: 0 <= i < |s| ==> !('A' <= s[i] <= 'Z')
  }

  /** The value of channel k (0 red, 1 green, 2 blue) of a colour. */
  function Channel(s: string, k: nat): (v: nat)
    requires IsColor(s) && k < 3
    ensures v < 256
  {
    assert IsHexDigit(s[1..][2 * k]) && IsHexDigit(s[1..][2 * k + 1]);
    HexValue(s[1 + 2 * k]) * 16 + HexValue(s[2 + 2 * k])
  }

  /** A rendering of three values below 256 is a lower-case colour whose
      channels are those values. */
  lemma RenderChannels(r: nat, g: nat, b: nat)
    requires r < 256 && g < 256 && b < 256
    ensures IsLowerColor(Render(r, g, b))
    ensures Channel(Render(r, g, b), 0) == r
    ensures Channel(Render(r, g, b), 1) == g
    ensures Channel(Render(r, g, b), 2) == b
  {
    FormatHex2Small(r);
    FormatHex2Small(g);
    FormatHex2Small(b);
    var s := Render(r, g, b);
    assert s == ['#', HexDigit(r / 16), HexDigit(r % 16), HexDigit(g / 16), HexDigit(g % 16),
                 HexDigit(b / 16), HexDigit(b % 16)];
  }

  lemma DivModPair(hi: nat, lo: nat)
    requires hi < 16 && lo < 16
    ensures (hi * 16 + lo) / 16 == hi && (hi * 16 + lo) % 16 == lo
  {
  }

  /** Two lower-case digits are the rendering of their value. */
  lemma FormatPair(a: char, b: char)
    requires IsHexDigit(a) && IsHexDigit(b) && !('A' <= a <= 'Z') && !('A' <= b <= 'Z')
    ensures FormatHex2(HexValue(a) * 16 + HexValue(b)) == [a, b]
  {
    DivModPair(HexValue(a), HexValue(b));
    FormatHex2Small(HexValue(a) * 16 + HexValue(b));
    HexDigitRoundTrip(a);
    HexDigitRoundTrip(b);
  }

  lemma RenderOfPairs(s: string, r: nat, g: nat, b: nat)
    requires |s| == 7 && s[0] == '#'
    requires FormatHex2(r) == s[1..3] && FormatHex2(g) == s[3..5] && FormatHex2(b) == s[5..7]
    ensures Render(r, g, b) == s
  {
    assert s == s[..1] + s[1..3] + s[3..5] + s[5..7];
  }

  lemma ChannelDigits(s: string, k: nat)
    requires IsLowerColor(s) && k < 3
    ensures FormatHex2(Channel(s, k)) == s[1 + 2 * k..3 + 2 * k]
  {
    var a, b := s[1 + 2 * k], s[2 + 2 * k];
    assert s[1..][2 * k] == a && s[1..][2 * k + 1] == b;
    FormatPair(a, b);
    assert s[1 + 2 * k..3 + 2 * k] == [a, b];
  }

  /** A lower-case colour is the rendering of its own channels. */
  lemma RenderOfChannels(s: string)
    requires IsLowerColor(s)
    ensures Render(Channel(s, 0), Channel(s, 1), Channel(s, 2)) == s
  {
    ChannelDigits(s, 0);
    ChannelDigits(s, 1);
    ChannelDigits(s, 2);
    RenderOfPairs(s, Channel(s, 0), Channel(s, 1), Channel(s, 2));
  }

  /** The leading '#' of a colour is what lstrip removes. */
  lemma StripHash(s: string)
    requires IsColor(s)
    ensures LStripChar(s, '#') == s[1..]
  {
    assert IsHexDigit(s[1..][0]);
  }

  /** int(_, 16) of the k-th slice of the stripped colour is channel k. */
  lemma ParseChannel(s: string, k: nat)
    requires IsColor(s) && k < 3
    ensures ParseHex(Slice(LStripChar(s, '#'), 2 * k, 2 * k + 2)) == Some(Channel(s, k) as int)
  {
    StripHash(s);
    var h := s[1..];
    var d := h[2 * k..2 * k + 2];
    assert Slice(h, 2 * k, 2 * k + 2) == d;
    assert d[0] == h[2 * k] && d[1] == h[2 * k + 1];
    assert IsHexDigits(d);
    assert d[0] == s[1 + 2 * k] && d[1] == s[2 + 2 * k];
    ParseHexOfDigits(d);
    PairValue(d);
  }

  /** Darkening a colour by a non-negative amount gives the rendering of
      max(0, c - amount) for every channel c. */
  lemma DarkenColorOfColor(s: string, amount: nat)
    requires IsColor(s)
    ensures DarkenColor(s, amount) == Some(Render(DarkenChannel(Channel(s, 0), amount),
                                                  DarkenChannel(Channel(s, 1), amount),
                                                  DarkenChannel(Channel(s, 2), amount)))
  {
    ParseChannel(s, 0);
    ParseChannel(s, 1);
    ParseChannel(s, 2);
  }

  /** Darkening a colour gives a lower-case colour whose every channel is
      max(0, c - amount): never negative and never above the input. */
  lemma DarkenColorChannels(s: string, amount: nat)
    requires IsColor(s)
    ensures DarkenColor(s, amount).Some?
    ensures var t := DarkenColor(s, amount).value;
      IsLowerColor(t)
      && Channel(t, 0) == DarkenChannel(Channel(s, 0), amount)
      && Channel(t, 1) == DarkenChannel(Channel(s, 1), amount)
      && Channel(t, 2) == DarkenChannel(Channel(s, 2), amount)
  {
    DarkenColorOfColor(s, amount);
    RenderChannels(DarkenChannel(Channel(s, 0), amount), DarkenChannel(Channel(s, 1), amount),
                   DarkenChannel(Channel(s, 2), amount));
  }

  /** Darkening by a then by b is darkening by a + b. */
  lemma DarkenColorTwice(s: string, a: nat, b: nat)
    requires IsColor(s)
    ensures DarkenColor(s, a).Some?
    ensures DarkenColor(DarkenColor(s, a).value, b) == DarkenColor(s, a + b)
  {
    DarkenColorChannels(s, a);
    var t := DarkenColor(s, a).value;
    DarkenColorOfColor(t, b);
    DarkenColorOfColor(s, a + b);
    DarkenChannelTwice(Channel(s, 0), a, b);
    DarkenChannelTwice(Channel(s, 1), a, b);
    DarkenChannelTwice(Channel(s, 2), a, b);
  }

  /** With amount 0 a lower-case colour comes back unchanged. */
  lemma DarkenColorByZero(s: string)
    requires IsLowerColor(s)
    ensures DarkenColor(s, 0) == Some(s)
  {
    DarkenColorOfColor(s, 0);
    RenderOfChannels(s);
  }

  /** The default amount, used for the hover shade. */
  const HoverAmount: nat := 20
  /** The amount used for the pressed shade. */
  const PressedAmount: nat := 40

  /** The pressed shade is the hover shade darkened once more by the
      default amount. */
  lemma PressedIsHoverDarkenedAgain(s: string)
    requires IsColor(s)
    ensures DarkenColor(s, HoverAmount).Some?
    ensures DarkenColor(s, PressedAmount) == DarkenColor(DarkenColor(s, HoverAmount).value, HoverAmount)
  {
    DarkenColorTwice(s, HoverAmount, HoverAmount);
  }
}
