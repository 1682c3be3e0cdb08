/** Colour helpers: the integer layer of packing a colour into a 64-bit
    pixel (three 16-bit lanes, red lowest) and unpacking it, and the lookup
    of a colour token that is either `#RRGGBB` or a colour name. */
module Color {
  import opened Wrappers

  /** A 16-bit lane value, kept in a 64-bit word. */
  type U16 = x: bv64 | x <= 0xFFFF

  /** The four 16-bit lanes of a pixel, in memory order on a
      little-endian machine: lane 0 is red, 1 green, 2 blue, 3 unused. */
  datatype PixelArray = PixelArray(lane0: U16, lane1: U16, lane2: U16, lane3: U16)

  /** The integer channels `pixel_to_color` divides by 255 (the float
      division is not modelled). */
  datatype Channels = Channels(red: U16, green: U16, blue: U16)

  /** `transmute::<u64, [u16; 4]>`: lane i is bits 16i..16i+15. */
  function Unpack(pixel: bv64): (a: PixelArray)
    ensures (a.lane3 << 48) | (a.lane2 << 32) | (a.lane1 << 16) | a.lane0 == pixel
  {
    PixelArray(pixel & 0xFFFF, (pixel >> 16) & 0xFFFF, (pixel >> 32) & 0xFFFF, pixel >> 48)
  }

  /** The channels of `pixel_to_color`: red, green and blue from lanes 0,
      1 and 2; lane 3 is ignored, so they spell out the low 48 bits. */
  function PixelChannels(pixel: bv64): (c: Channels)
    ensures (c.blue << 32) | (c.green << 16) | c.red == pixel & 0xFFFF_FFFF_FFFF
  {
    var a := Unpack(pixel);
    Channels(a.lane0, a.lane1, a.lane2)
  }

  // The lanes of `blue << 32 | green << 16 | red` for 16-bit channels,
  // one lemma per lane to keep each bit-vector proof small.
  lemma PackedLane0(red: bv64, green: bv64, blue: bv64)
    ensures red <= 0xFFFF && green <= 0xFFFF && blue <= 0xFFFF ==> ((blue << 32) | (green << 16) | red) & 0xFFFF == red
  {
  }

  lemma PackedLane1(red: bv64, green: bv64, blue: bv64)
    ensures red <= 0xFFFF && green <= 0xFFFF && blue <= 0xFFFF ==> (((blue << 32) | (green << 16) | red) >> 16) & 0xFFFF == green
  {
  }

  lemma PackedLane2(red: bv64, green: bv64, blue: bv64)
    ensures red <= 0xFFFF && green <= 0xFFFF && blue <= 0xFFFF ==> (((blue << 32) | (green << 16) | red) >> 32) & 0xFFFF == blue
  {
  }

  lemma PackedLane3(red: bv64, green: bv64, blue: bv64)
    ensures red <= 0xFFFF && green <= 0xFFFF && blue <= 0xFFFF ==> ((blue << 32) | (green << 16) | red) >> 48 == 0
  {
  }

  /** The integer part of `color_to_pixel`: the three already-converted
      channel values combined as `blue << 32 | green << 16 | red`. For
      16-bit channels, each lands in its own lane and lane 3 stays 0. */
  function Pack(red: bv64, green: bv64, blue: bv64): (p: bv64)
    ensures red <= 0xFFFF && green <= 0xFFFF && blue <= 0xFFFF ==> p & 0xFFFF == red
    ensures red <= 0xFFFF && green <= 0xFFFF && blue <= 0xFFFF ==> (p >> 16) & 0xFFFF == green
    ensures red <= 0xFFFF && green <= 0xFFFF && blue <= 0xFFFF ==> (p >> 32) & 0xFFFF == blue
    ensures red <= 0xFFFF && green <= 0xFFFF && blue <= 0xFFFF ==> p >> 48 == 0
  {
    PackedLane0(red, green, blue);
    PackedLane1(red, green, blue);
    PackedLane2(red, green, blue);
    PackedLane3(red, green, blue);
    (blue << 32) | (green << 16) | red
  }

  /** For channels below 2^16 packing is undone by unpacking, and the
      unused lane is 0. */
  lemma PackUnpack(red: bv64, green: bv64, blue: bv64)
    requires red <= 0xFFFF && green <= 0xFFFF && blue <= 0xFFFF
    ensures Unpack(Pack(red, green, blue)) == PixelArray(red, green, blue, 0)
    ensures PixelChannels(Pack(red, green, blue)) == Channels(red, green, blue)
  {
  }

  /** Conversely, a pixel whose lane 3 is 0 is the packing of its channels. */
  lemma UnpackPack(pixel: bv64)
    requires Unpack(pixel).lane3 == 0
    ensures Pack(PixelChannels(pixel).red, PixelChannels(pixel).green, PixelChannels(pixel).blue) == pixel
  {
  }

  /** A green wider than 16 bits is not confined to its lane: its
      overflow is ORed into blue. */
  lemma WideGreenReachesBlue()
    ensures PixelChannels(Pack(0, 0x1_0000, 0)).blue == 1
    ensures PixelChannels(Pack(0, 0x1_0000, 0)).green == 0
  {
  }

  type Byte = x: int | 0 <= x < 256

  /** An `(u8, u8, u8)` colour triple. */
  datatype Rgb = Rgb(red: Byte, green: Byte, blue: Byte)

  predicate IsHexDigit(c: char)
  {
    '0' <= c <= '9' || 'a' <= c <= 'f' || 'A' <= c <= 'F'
  }

  function HexDigitValue(c: char): (v: nat)
    requires IsHexDigit(c)
    ensures v < 16
  {
    if '0' <= c <= '9' then c as int - '0' as int
    else if 'a' <= c <= 'f' then c as int - 'a' as int + 10
    else c as int - 'A' as int + 10
  }

  /** `u8::from_str_radix` of a two-digit hex string. */
  function HexByte(hi: char, lo: char): (b: Byte)
    requires IsHexDigit(hi) && IsHexDigit(lo)
    ensures b / 16 == HexDigitValue(hi) && b % 16 == HexDigitValue(lo)
  {
    16 * HexDigitValue(hi) + HexDigitValue(lo)
  }

  predicate StartsWithHash(s: string)
  {
    |s| > 0 && s[0] == '#'
  }

  predicate IsAscii(s: string)
  {
    forall i :: 0 <= i < |s| ==> s[i] as int < 128
  }

  /** What a caller must pass: a `#` token has six hex digits at positions
      1..6 (anything after them is ignored); a name is ASCII, so that
      lower-casing it is the ASCII mapping. */
  predicate WellFormedToken(s: string)
  {
    if StartsWithHash(s) then
      |s| >= 7 && forall i :: 1 <= i < 7 ==> IsHexDigit(s[i])
    else
      IsAscii(s)
  }

  function LowerChar(c: char): (r: char)
    ensures 'A' <= c <= 'Z' ==> r as int == c as int + 32
    ensures !('A' <= c <= 'Z') ==> r == c
  {
    if 'A' <= c <= 'Z' then (c as int + 32) as char else c
  }

  /** `to_lowercase` on ASCII text. */
  function ToLower(s: string): (r: string)
    ensures |r| == |s|
    ensures forall i :: 0 <= i < |s| ==> r[i] == LowerChar(s[i])
  {
    seq(|s|, i requires 0 <= i < |s| => LowerChar(s[i]))
  }

  /** `lookup_color_by_name_or_hex`. The name table, generated at build
      time, is the map `table`, keyed by lower-case names. */
  function Lookup(s: string, table: map<string, Rgb>): (r: Option<Rgb>)
    requires WellFormedToken(s)
    ensures StartsWithHash(s) ==> r == Some(Rgb(HexByte(s[1], s[2]), HexByte(s[3], s[4]), HexByte(s[5], s[6])))
    ensures !StartsWithHash(s) ==> (r.Some? <==> ToLower(s) in table)
    ensures !StartsWithHash(s) && r.Some? ==> r.value == table[ToLower(s)]
  {
    if StartsWithHash(s) then
      Some(Rgb(HexByte(s[1], s[2]), HexByte(s[3], s[4]), HexByte(s[5], s[6])))
    else
      var key := ToLower(s);
      if key in table then Some(table[key]) else None
  }

  /** The upper-case hex digit of a value below 16. */
  function HexDigitChar(v: nat): (c: char)
    requires v < 16
    ensures IsHexDigit(c) && HexDigitValue(c) == v
  {
    if v < 10 then ('0' as int + v) as char else ('A' as int + v - 10) as char
  }

  /** The `#RRGGBB` spelling of a colour, the format the lookup reads. */
  function HexSpelling(c: Rgb): (s: string)
    ensures |s| == 7 && StartsWithHash(s)
  {
    ['#', HexDigitChar(c.red / 16), HexDigitChar(c.red % 16),
     HexDigitChar(c.green / 16), HexDigitChar(c.green % 16),
     HexDigitChar(c.blue / 16), HexDigitChar(c.blue % 16)]
  }

  /** Every colour round-trips through its `#RRGGBB` spelling, whatever
      the name table holds. */
  lemma HexRoundTrip(c: Rgb, table: map<string, Rgb>)
    ensures WellFormedToken(HexSpelling(c))
    ensures Lookup(HexSpelling(c), table) == Some(c)
  {
    var s := HexSpelling(c);
    assert HexByte(s[1], s[2]) == c.red;
    assert HexByte(s[3], s[4]) == c.green;
    assert HexByte(s[5], s[6]) == c.blue;
  }

  /** Extra characters after the sixth digit are ignored. */
  lemma HexIgnoresTail(s: string, tail: string, table: map<string, Rgb>)
    requires WellFormedToken(s) && StartsWithHash(s)
    ensures WellFormedToken(s + tail)
    ensures Lookup(s + tail, table) == Lookup(s, table)
  {
    assert (s + tail)[..7] == s[..7];
  }

  lemma HexDigitValueIgnoresCase(c: char)
    requires IsHexDigit(c)
    ensures IsHexDigit(LowerChar(c)) && HexDigitValue(LowerChar(c)) == HexDigitValue(c)
  {
  }

  /** The lookup is case-insensitive: a token and its lower-case form give
      the same colour (names by lower-casing, hex digits by their value). */
  lemma LookupIgnoresCase(s: string, table: map<string, Rgb>)
    requires WellFormedToken(s)
    ensures WellFormedToken(ToLower(s))
    ensures Lookup(ToLower(s), table) == Lookup(s, table)
  {
    var t := ToLower(s);
    if StartsWithHash(s) {
      assert StartsWithHash(t);
      forall i | 1 <= i < 7 ensures IsHexDigit(t[i]) && HexDigitValue(t[i]) == HexDigitValue(s[i]) {
        HexDigitValueIgnoresCase(s[i]);
      }
    } else {
      assert !StartsWithHash(t);
      assert ToLower(t) == t;
    }
  }

  /** "Red" and "red" name the same colour. */
  lemma RedIgnoresCase(table: map<string, Rgb>)
    ensures Lookup("Red", table) == Lookup("red", table)
  {
    LookupIgnoresCase("Red", table);
    assert ToLower("Red") == "red";
  }

  /** White and black by their hex spellings. */
  lemma HexExamples(table: map<string, Rgb>)
    ensures Lookup("#FFFFFF", table) == Some(Rgb(255, 255, 255))
    ensures Lookup("#000000", table) == Some(Rgb(0, 0, 0))
  {
  }

  /** A name that matches no key of the table, in any case, gives nothing. */
  lemma UnknownName(s: string, table: map<string, Rgb>)
    requires WellFormedToken(s) && !StartsWithHash(s)
    requires forall name :: name in table ==> ToLower(name) != ToLower(s)
    ensures Lookup(s, table) == None
  {
    assert ToLower(ToLower(s)) == ToLower(s);
  }
}
