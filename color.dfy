/**
 * Decoding a `#rrggbb` colour string into 8-bit channels (`Color.init(hex:)` in
 * Color.swift), up to the point where the channels are divided by 255.
 */
module HexColor {
  import opened Wrappers

  /** The three channel bytes before conversion to floating point. */
  datatype Rgb = Rgb(red: bv8, green: bv8, blue: bv8)

  /** The two guards of `init(hex:)`, each of which stops the app with `fatalError`. */
  datatype ColorError =
    | MalformedString  // no leading '#' or not seven characters
    | NotHexNumber     // the six characters after '#' do not scan as hex

  predicate IsHexDigit(c: char)
  {
    '0' <= c <= '9' || 'A' <= c <= 'F' || 'a' <= c <= 'f'
  }

  predicate AllHexDigits(s: string)
  {
    forall i :: 0 <= i < |s| ==> IsHexDigit(s[i])
  }

  /** The value of a hex digit, either case; other characters, which are never scanned, count as 0. */
  function DigitValue(c: char): (v: bv64)
    ensures v < 16
  {
    match c
    case '0' => 0x0 case '1' => 0x1 case '2' => 0x2 case '3' => 0x3
    case '4' => 0x4 case '5' => 0x5 case '6' => 0x6 case '7' => 0x7
    case '8' => 0x8 case '9' => 0x9
    case 'a' | 'A' => 0xa case 'b' | 'B' => 0xb case 'c' | 'C' => 0xc
    case 'd' | 'D' => 0xd case 'e' | 'E' => 0xe case 'f' | 'F' => 0xf
    case _ => 0x0
  }

  /**
   * `scanHexInt64` on the six characters after '#', specified strictly: it
   * succeeds exactly when all six are hex digits, and the number has the first
   * digit as its most significant nibble.
   */
  function ScanHex(digits: string): (r: Option<bv64>)
    requires |digits| == 6
    ensures r.Some? <==> AllHexDigits(digits)
    ensures r.Some? ==> r.value < 0x1000000
  {
    if AllHexDigits(digits) then
      Some((DigitValue(digits[0]) << 20) | (DigitValue(digits[1]) << 16) | (DigitValue(digits[2]) << 12) |
           (DigitValue(digits[3]) << 8) | (DigitValue(digits[4]) << 4) | DigitValue(digits[5]))
    else None
  }

  /** The channels cut out of the scanned number with masks and shifts. */
  function Channels(n: bv64): (c: Rgb)
    ensures Combine(c) == n & 0xffffff
  {
    Rgb(((n & 0xff0000) >> 16) as bv8, ((n & 0x00ff00) >> 8) as bv8, (n & 0x0000ff) as bv8)
  }

  /** The 24-bit number whose bytes are the three channels. */
  function Combine(c: Rgb): bv64
  {
    ((c.red as bv64) << 16) | ((c.green as bv64) << 8) | (c.blue as bv64)
  }

  /** `init(hex:)` up to the division by 255. */
  function Decode(hex: string): (r: Result<Rgb, ColorError>)
    ensures !(|hex| == 7 && hex[0] == '#') ==> r == Failure(MalformedString)
    ensures |hex| == 7 && hex[0] == '#' && !AllHexDigits(hex[1..]) ==> r == Failure(NotHexNumber)
    ensures r.Success? <==> |hex| == 7 && hex[0] == '#' && AllHexDigits(hex[1..])
    ensures r.Success? ==> Combine(r.value) == ScanHex(hex[1..]).value
  {
    if !(|hex| > 0 && hex[0] == '#' && |hex| == 7) then Failure(MalformedString)
    else
      match ScanHex(hex[1..])
      case None => Failure(NotHexNumber)
      case Some(n) => Success(Channels(n))
  }

  /** The first two digits are red, the next two green, the last two blue, high nibble first. */
  lemma DecodeChannels(hex: string)
    requires |hex| == 7 && hex[0] == '#' && AllHexDigits(hex[1..])
    ensures Decode(hex).Success?
    ensures Decode(hex).value.red == ((DigitValue(hex[1]) << 4) | DigitValue(hex[2])) as bv8
    ensures Decode(hex).value.green == ((DigitValue(hex[3]) << 4) | DigitValue(hex[4])) as bv8
    ensures Decode(hex).value.blue == ((DigitValue(hex[5]) << 4) | DigitValue(hex[6])) as bv8
  {
  }

  /** Pure red: "#ff0000" decodes to red 255 and no green or blue. */
  lemma DecodePureRed()
    ensures Decode("#ff0000") == Success(Rgb(255, 0, 0))
  {
  }

  /** The lower-case hex digit for a nibble. */
  function DigitChar(v: bv8): (c: char)
    requires v < 16
    ensures IsHexDigit(c) && DigitValue(c) == v as bv64
  {
    match v
    case 0x0 => '0' case 0x1 => '1' case 0x2 => '2' case 0x3 => '3'
    case 0x4 => '4' case 0x5 => '5' case 0x6 => '6' case 0x7 => '7'
    case 0x8 => '8' case 0x9 => '9' case 0xa => 'a' case 0xb => 'b'
    case 0xc => 'c' case 0xd => 'd' case 0xe => 'e' case _ => 'f'
  }

  /** Reference encoder: `#` followed by two lower-case hex digits per channel. */
  function Encode(c: Rgb): (hex: string)
    ensures |hex| == 7 && hex[0] == '#' && AllHexDigits(hex[1..])
  {
    ['#', DigitChar(c.red >> 4), DigitChar(c.red & 0xf),
     DigitChar(c.green >> 4), DigitChar(c.green & 0xf),
     DigitChar(c.blue >> 4), DigitChar(c.blue & 0xf)]
  }

  /** Decoding inverts encoding: every colour survives the round trip. */
  lemma DecodeEncode(c: Rgb)
    ensures Decode(Encode(c)) == Success(c)
  {
  }
}
