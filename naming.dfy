// The accessory name the firmware derives at start-up from the station
// MAC address: "LightBulb-" followed by bytes 3, 4 and 5 of the address,
// each as two upper-case hexadecimal digits (the format
// "LightBulb-%02X%02X%02X").
module Naming {

  /** A uint8_t. */
  type Byte = b: int | 0 <= b < 256

  datatype Option<T> = None | Some(value: T)

  /** The fixed part of the name. */
  const Prefix: string := "LightBulb-"

  /** Length of the formatted name: the prefix and six hex digits. */
  const NameLength: nat := 16

  predicate IsUpperHexDigit(c: char)
  {
    '0' <= c <= '9' || 'A' <= c <= 'F'
  }

  /** The value of an upper-case hexadecimal digit. */
  function DigitValue(c: char): (n: nat)
    requires IsUpperHexDigit(c)
    ensures n < 16
  {
    if c <= '9' then c as int - '0' as int else c as int - 'A' as int + 10
  }

  /** The upper-case hexadecimal digit for 0 <= n < 16, as "%X" prints it. */
  function HexDigit(n: nat): (c: char)
    requires n < 16
    ensures IsUpperHexDigit(c) && DigitValue(c) == n
  {
    if n < 10 then ('0' as int + n) as char else ('A' as int + n - 10) as char
  }

  /** A byte as "%02X" prints it: two digits, zero-padded, upper case. */
  function Hex2(b: Byte): (s: string)
    ensures |s| == 2 && IsUpperHexDigit(s[0]) && IsUpperHexDigit(s[1])
    ensures 16 * DigitValue(s[0]) + DigitValue(s[1]) == b
  {
    [HexDigit(b / 16), HexDigit(b % 16)]
  }

  /** The value of two hexadecimal digits, or None when either is not one. */
  function ParseHex2(s: string): (r: Option<Byte>)
    requires |s| == 2
    ensures r.Some? <==> IsUpperHexDigit(s[0]) && IsUpperHexDigit(s[1])
  {
    if IsUpperHexDigit(s[0]) && IsUpperHexDigit(s[1])
    then Some(16 * DigitValue(s[0]) + DigitValue(s[1]))
    else None
  }

  /** The name create_accessory_name stores, from MAC bytes 3, 4 and 5. */
  function AccessoryName(b3: Byte, b4: Byte, b5: Byte): (name: string)
    ensures |name| == NameLength
    ensures name[..|Prefix|] == Prefix
    ensures forall i :: |Prefix| <= i < |name| ==> IsUpperHexDigit(name[i])
  {
    Prefix + Hex2(b3) + Hex2(b4) + Hex2(b5)
  }

  /** Reads the three MAC bytes back out of an accessory name. */
  function ParseAccessoryName(s: string): (r: Option<(Byte, Byte, Byte)>)
    ensures r.Some? ==> |s| == NameLength && s[..|Prefix|] == Prefix
  {
    if |s| != NameLength || s[..|Prefix|] != Prefix then None
    else
      match (ParseHex2(s[10..12]), ParseHex2(s[12..14]), ParseHex2(s[14..16]))
      case (Some(b3), Some(b4), Some(b5)) => Some((b3, b4, b5))
      case _ => None
  }

  lemma Hex2RoundTrip(b: Byte)
    ensures ParseHex2(Hex2(b)) == Some(b)
  {
  }

  lemma HexDigitOfValue(c: char)
    requires IsUpperHexDigit(c)
    ensures HexDigit(DigitValue(c)) == c
  {
  }

  lemma ParseHex2Sound(s: string)
    requires |s| == 2 && ParseHex2(s).Some?
    ensures Hex2(ParseHex2(s).value) == s
  {
    var v := ParseHex2(s).value;
    HexDigitOfValue(s[0]);
    HexDigitOfValue(s[1]);
    assert v / 16 == DigitValue(s[0]) && v % 16 == DigitValue(s[1]);
  }

  /** Decoding the last six characters of a formatted name recovers the three bytes. */
  lemma NameRoundTrip(b3: Byte, b4: Byte, b5: Byte)
    ensures ParseAccessoryName(AccessoryName(b3, b4, b5)) == Some((b3, b4, b5))
  {
    var s := AccessoryName(b3, b4, b5);
    var digits := Hex2(b3) + Hex2(b4) + Hex2(b5);
    assert s == Prefix + digits;
    assert s[10..16] == digits;
    assert s[10..12] == Hex2(b3);
    assert s[12..14] == Hex2(b4);
    assert s[14..16] == Hex2(b5);
    Hex2RoundTrip(b3);
    Hex2RoundTrip(b4);
    Hex2RoundTrip(b5);
  }

  /** Conversely, every string the decoder accepts is the name of the bytes it returns. */
  lemma NameParseSound(s: string)
    requires ParseAccessoryName(s).Some?
    ensures var (b3, b4, b5) := ParseAccessoryName(s).value; AccessoryName(b3, b4, b5) == s
  {
    var (b3, b4, b5) := ParseAccessoryName(s).value;
    ParseHex2Sound(s[10..12]);
    ParseHex2Sound(s[12..14]);
    ParseHex2Sound(s[14..16]);
    assert s == s[..10] + s[10..12] + s[12..14] + s[14..16];
  }

  /** Different MAC tails give different names. */
  lemma NameInjective(a3: Byte, a4: Byte, a5: Byte, b3: Byte, b4: Byte, b5: Byte)
    requires AccessoryName(a3, a4, a5) == AccessoryName(b3, b4, b5)
    ensures a3 == b3 && a4 == b4 && a5 == b5
  {
    NameRoundTrip(a3, a4, a5);
    NameRoundTrip(b3, b4, b5);
  }
}
