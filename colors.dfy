/**
 * Hex colour utilities of the site: parsing `#rrggbb` (the `#` optional,
 * digits of either case) into three channels, printing channels back as a
 * lowercase `#rrggbb` string, and inverting a colour.
 */
module Colors {
  import opened Wrappers
  import opened JsString

  /** Three colour channels. */
  datatype Rgb = Rgb(r: int, g: int, b: int)

  predicate IsByte(x: int) {
    0 <= x <= 255
  }

  predicate InRange(c: Rgb) {
    IsByte(c.r) && IsByte(c.g) && IsByte(c.b)
  }

  /** A character of the class `[a-f\d]` matched case-insensitively. */
  predicate IsHexDigit(c: char) {
    ('0' <= c <= '9') || ('a' <= c <= 'f') || ('A' <= c <= 'F')
  }

  predicate AllHexDigits(s: string) {
    forall k :: 0 <= k < |s| ==> IsHexDigit(s[k])
  }

  /** The strings the pattern `^#?([a-f\d]{2})([a-f\d]{2})([a-f\d]{2})$/i` accepts. */
  predicate IsHexColor(s: string) {
    (|s| == 6 && AllHexDigits(s)) || (|s| == 7 && s[0] == '#' && AllHexDigits(s[1..]))
  }

  /** The lowercase form of an ASCII letter; every other character is unchanged. */
  function ToLowerAscii(c: char): (l: char)
    ensures 'A' <= c <= 'Z' ==> l as int == c as int + 32
    ensures !('A' <= c <= 'Z') ==> l == c
  {
    if 'A' <= c <= 'Z' then (c as int - 'A' as int + 'a' as int) as char else c
  }

  function LowerAll(s: string): (l: string)
    ensures |l| == |s| && forall k :: 0 <= k < |s| ==> l[k] == ToLowerAscii(s[k])
  {
    if s == [] then [] else [ToLowerAscii(s[0])] + LowerAll(s[1..])
  }

  /** The base-16 value of one hex digit; its lowercase form is the alphabet entry at that value. */
  function HexDigitValue(c: char): (v: nat)
    requires IsHexDigit(c)
    ensures v < 16
    ensures DigitAlphabet[v] == ToLowerAscii(c)
  {
    if c <= '9' then c as int - '0' as int
    else if 'a' <= c then c as int - 'a' as int + 10
    else c as int - 'A' as int + 10
  }

  /** Reading back a lowercase digit gives its value. */
  lemma DigitValueOfAlphabet(v: nat)
    requires v < 16
    ensures IsHexDigit(DigitAlphabet[v]) && HexDigitValue(DigitAlphabet[v]) == v
  {
  }

  /** The colour digits of a string: everything after a leading `#`, if there is one. */
  function HexBody(hex: string): string {
    if |hex| > 0 && hex[0] == '#' then hex[1..] else hex
  }

  /** `parseInt(d[i..i+2], 16)`: the base-16 value of a two-digit pair. */
  function PairValue(d: string, i: nat): (v: nat)
    requires i + 2 <= |d| && IsHexDigit(d[i]) && IsHexDigit(d[i + 1])
    ensures v <= 255
  {
    16 * HexDigitValue(d[i]) + HexDigitValue(d[i + 1])
  }

  /** The three channels of an accepted colour string. */
  function Channels(hex: string): (c: Rgb)
    requires IsHexColor(hex)
    ensures InRange(c)
  {
    var d := HexBody(hex);
    Rgb(PairValue(d, 0), PairValue(d, 2), PairValue(d, 4))
  }

  /** The message of the error `hexToRgb` throws. */
  function InvalidHexMessage(hex: string): string {
    "Invalid hex color: " + hex
  }

  /**
   * `hexToRgb`: succeeds exactly on the strings the pattern accepts, each
   * channel being the base-16 value of its digit pair; otherwise it throws.
   */
  function HexToRgb(hex: string): (r: Result<Rgb>)
    ensures r.Ok? <==> IsHexColor(hex)
    ensures r.Ok? ==> r.value == Channels(hex)
    ensures r.Err? ==> r.message == InvalidHexMessage(hex)
  {
    var d := HexBody(hex);
    if |d| == 6 && AllHexDigits(d) then Ok(Channels(hex)) else Err(InvalidHexMessage(hex))
  }

  /** One channel as `rgbToHex` prints it: `x.toString(16)`, padded with `0` when one character long. */
  function ChannelHex(x: int): (h: string)
    ensures |h| >= 2
    ensures x < 0 ==> h[0] == '-'
    ensures x >= 0 ==> forall k :: 0 <= k < |h| ==> h[k] in DigitAlphabet
  {
    var h := NumberToString(x, 16);
    if |h| == 1 then "0" + h else h
  }

  /** `rgbToHex` for integral channels. */
  function RgbToHex(r: int, g: int, b: int): (s: string)
    ensures |s| >= 7 && s[0] == '#'
  {
    "#" + ChannelHex(r) + ChannelHex(g) + ChannelHex(b)
  }

  /** A byte prints as exactly two lowercase digits, high nibble first. */
  lemma ChannelHexOfByte(x: int)
    requires IsByte(x)
    ensures ChannelHex(x) == [DigitAlphabet[x / 16], DigitAlphabet[x % 16]]
  {
    if x >= 16 {
      assert RadixDigits(x, 16) == RadixDigits(x / 16, 16) + [DigitAlphabet[x % 16]];
    }
  }

  /** A lowercase `#rrggbb` string. */
  predicate IsCanonicalHex(s: string) {
    |s| == 7 && s[0] == '#' && forall k :: 1 <= k < 7 ==> s[k] in DigitAlphabet
  }

  /** The two lowercase digits of a byte, high nibble first. */
  function ByteDigits(x: int): (d: string)
    requires IsByte(x)
    ensures |d| == 2
  {
    [DigitAlphabet[x / 16], DigitAlphabet[x % 16]]
  }

  /**
   * For channels in 0..255, `rgbToHex` gives `#` and six lowercase digits,
   * each channel zero-padded to two.
   */
  lemma RgbToHexOfBytes(r: int, g: int, b: int)
    requires IsByte(r) && IsByte(g) && IsByte(b)
    ensures RgbToHex(r, g, b) == "#" + ByteDigits(r) + ByteDigits(g) + ByteDigits(b)
    ensures IsCanonicalHex(RgbToHex(r, g, b))
  {
    ChannelHexOfByte(r);
    ChannelHexOfByte(g);
    ChannelHexOfByte(b);
  }

  /** Two digits printed from a byte read back as that byte. */
  lemma PairOfByte(d: string, i: nat, x: int)
    requires IsByte(x) && i + 2 <= |d|
    requires d[i..i + 2] == ByteDigits(x)
    ensures IsHexDigit(d[i]) && IsHexDigit(d[i + 1]) && PairValue(d, i) == x
  {
    assert d[i] == DigitAlphabet[x / 16] && d[i + 1] == DigitAlphabet[x % 16];
    DigitValueOfAlphabet(x / 16);
    DigitValueOfAlphabet(x % 16);
  }

  /** Six printed digits after `#` parse back as the three bytes. */
  lemma ParseByteDigits(r: int, g: int, b: int)
    requires IsByte(r) && IsByte(g) && IsByte(b)
    ensures HexToRgb("#" + ByteDigits(r) + ByteDigits(g) + ByteDigits(b)) == Ok(Rgb(r, g, b))
  {
    var s := "#" + ByteDigits(r) + ByteDigits(g) + ByteDigits(b);
    var d := s[1..];
    assert d[0..2] == ByteDigits(r) && d[2..4] == ByteDigits(g) && d[4..6] == ByteDigits(b);
    PairOfByte(d, 0, r);
    PairOfByte(d, 2, g);
    PairOfByte(d, 4, b);
    assert AllHexDigits(d) by {
      forall k | 0 <= k < 6 ensures IsHexDigit(d[k]) {
        assert k == 0 || k == 1 || k == 2 || k == 3 || k == 4 || k == 5;
      }
    }
    assert HexBody(s) == d;
    assert IsHexColor(s);
    assert Channels(s) == Rgb(PairValue(d, 0), PairValue(d, 2), PairValue(d, 4)) == Rgb(r, g, b);
    assert HexToRgb(s) == Ok(Channels(s));
  }

  /** Parsing what `rgbToHex` printed gives back the channels. */
  lemma {:induction false} HexToRgbOfRgbToHex(r: int, g: int, b: int)
    requires IsByte(r) && IsByte(g) && IsByte(b)
    ensures HexToRgb(RgbToHex(r, g, b)) == Ok(Rgb(r, g, b))
  {
    RgbToHexOfBytes(r, g, b);
    ParseByteDigits(r, g, b);
  }

  /** The canonical spelling of an accepted colour: `#` added if missing, letters lowered. */
  function Canonical(hex: string): (c: string)
    requires IsHexColor(hex)
    ensures IsCanonicalHex(c)
  {
    "#" + LowerAll(HexBody(hex))
  }

  /** A parsed pair prints back as its two digits, lowered. */
  lemma ByteDigitsOfPair(d: string, i: nat)
    requires i + 2 <= |d| && IsHexDigit(d[i]) && IsHexDigit(d[i + 1])
    ensures ByteDigits(PairValue(d, i)) == [ToLowerAscii(d[i]), ToLowerAscii(d[i + 1])]
  {
    var x := PairValue(d, i);
    assert x / 16 == HexDigitValue(d[i]);
    assert x % 16 == HexDigitValue(d[i + 1]);
  }

  /** Lowering six digits pair by pair, behind a `#`. */
  lemma LowerSix(d: string)
    requires |d| == 6
    ensures "#" + LowerAll(d) == "#" + [ToLowerAscii(d[0]), ToLowerAscii(d[1])] + [ToLowerAscii(d[2]), ToLowerAscii(d[3])]
                                     + [ToLowerAscii(d[4]), ToLowerAscii(d[5])]
  {
    var l := LowerAll(d);
    assert l == [l[0], l[1], l[2], l[3], l[4], l[5]];
  }

  /**
   * Printing a parsed colour gives its canonical spelling: the input with
   * `#` added if it was missing and letters lowered.
   */
  lemma {:induction false} RgbToHexOfHexToRgb(hex: string)
    requires IsHexColor(hex)
    ensures var c := HexToRgb(hex).value; RgbToHex(c.r, c.g, c.b) == Canonical(hex)
  {
    var d := HexBody(hex);
    var c := Channels(hex);
    ByteDigitsOfPair(d, 0);
    ByteDigitsOfPair(d, 2);
    ByteDigitsOfPair(d, 4);
    RgbToHexOfBytes(c.r, c.g, c.b);
    LowerSix(d);
  }

  /** A canonical string is its own canonical spelling, so printing it after parsing returns it unchanged. */
  lemma {:induction false} CanonicalIsFixed(hex: string)
    requires IsCanonicalHex(hex)
    ensures IsHexColor(hex) && Canonical(hex) == hex
  {
    var d := hex[1..];
    assert forall k :: 0 <= k < 6 ==> d[k] == hex[k + 1];
    assert AllHexDigits(d);
    assert HexBody(hex) == d;
    var l := LowerAll(d);
    assert forall k :: 0 <= k < 6 ==> l[k] == d[k];
    assert l == d;
  }

  /** The channel-wise negation `255 - c` of a colour. */
  function Negate(c: Rgb): Rgb {
    Rgb(255 - c.r, 255 - c.g, 255 - c.b)
  }

  /** A negated in-range colour prints canonically and parses back to itself. */
  lemma NegatedRoundTrip(c: Rgb)
    requires InRange(c)
    ensures var n := Negate(c); IsCanonicalHex(RgbToHex(n.r, n.g, n.b)) && HexToRgb(RgbToHex(n.r, n.g, n.b)) == Ok(n)
  {
    var n := Negate(c);
    RgbToHexOfBytes(n.r, n.g, n.b);
    HexToRgbOfRgbToHex(n.r, n.g, n.b);
  }

  /**
   * `invertColor`: every channel `c` becomes `255 - c`; an invalid string
   * propagates the parse error.
   */
  function InvertColor(hex: string): (r: Result<string>)
    ensures r.Ok? <==> IsHexColor(hex)
    ensures r.Err? ==> r.message == InvalidHexMessage(hex)
    ensures r.Ok? ==> IsCanonicalHex(r.value) && HexToRgb(r.value) == Ok(Negate(Channels(hex)))
  {
    match HexToRgb(hex)
    case Err(m) => Err(m)
    case Ok(c) =>
      var n := Negate(c);
      NegatedRoundTrip(c);
      Ok(RgbToHex(n.r, n.g, n.b))
  }

  /** Inverting twice gives the canonical spelling of the original colour. */
  lemma {:induction false} InvertInvolution(hex: string)
    requires IsHexColor(hex)
    ensures InvertColor(hex).Ok?
    ensures InvertColor(InvertColor(hex).value) == Ok(Canonical(hex))
  {
    var once := InvertColor(hex).value;
    assert Negate(Channels(once)) == Channels(hex);
    RgbToHexOfHexToRgb(hex);
  }

  /** On an already canonical colour, inverting twice is the identity. */
  lemma InvertInvolutionCanonical(hex: string)
    requires IsCanonicalHex(hex)
    ensures InvertColor(hex).Ok? && InvertColor(InvertColor(hex).value) == Ok(hex)
  {
    CanonicalIsFixed(hex);
    InvertInvolution(hex);
  }

  /**
   * `generateSecondaryColor`: the secondary colour is the inverted primary,
   * failing on the same strings and with the same message.
   */
  function GenerateSecondaryColor(primaryColor: string): (r: Result<string>)
    ensures r.Ok? <==> IsHexColor(primaryColor)
    ensures r.Err? ==> r.message == InvalidHexMessage(primaryColor)
    ensures r.Ok? ==> IsCanonicalHex(r.value) && HexToRgb(r.value) == Ok(Negate(Channels(primaryColor)))
  {
    InvertColor(primaryColor)
  }

  /**
   * A canonical spelling is fixed by the channels it parses to, so two
   * results that are both canonical and parse alike are the same string:
   * `generateSecondaryColor` and `invertColor` agree character by character.
   */
  lemma {:induction false} CanonicalDeterminedByChannels(a: string, b: string)
    requires IsCanonicalHex(a) && IsCanonicalHex(b)
    ensures HexToRgb(a) == HexToRgb(b) <==> a == b
  {
    if HexToRgb(a) == HexToRgb(b) {
      CanonicalIsFixed(a);
      CanonicalIsFixed(b);
      RgbToHexOfHexToRgb(a);
      RgbToHexOfHexToRgb(b);
    }
  }

  /** The colour the theme components use when their primary colour does not parse. */
  const ThemeFallbackRgb: Rgb := Rgb(16, 185, 129)

  /**
   * The copy of `hexToRgb` inside the theme components: the same pattern,
   * but an unparseable string yields the fallback colour instead of throwing.
   */
  function ThemeHexToRgb(hex: string): (c: Rgb)
    ensures InRange(c)
    ensures HexToRgb(hex).Ok? ==> c == HexToRgb(hex).value
    ensures HexToRgb(hex).Err? ==> c == ThemeFallbackRgb
  {
    if IsHexColor(hex) then Channels(hex) else ThemeFallbackRgb
  }
}
