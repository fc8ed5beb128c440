/** Hexadecimal and decimal text, as the plan file uses it. */
module TextFormats {
  import opened Prelude

  newtype byte = b: int | 0 <= b < 256

  /** A 20-byte account address. */
  type Address = a: seq<byte> | |a| == 20 witness seq(20, _ => 0)

  // ------------------------------------------------------------------------------- hex

  function DigitChar(d: int): char
    requires 0 <= d < 16
  {
    if d < 10 then ('0' as int + d) as char else ('a' as int + d - 10) as char
  }

  function DigitValue(c: char): Option<int> {
    if '0' <= c <= '9' then Some(c as int - '0' as int)
    else if 'a' <= c <= 'f' then Some(c as int - 'a' as int + 10)
    else if 'A' <= c <= 'F' then Some(c as int - 'A' as int + 10)
    else None
  }

  function HighDigit(b: byte): char { DigitChar(b as int / 16) }
  function LowDigit(b: byte): char { DigitChar(b as int % 16) }

  function PairValue(h: char, l: char): Option<byte> {
    match (DigitValue(h), DigitValue(l))
    case (Some(x), Some(y)) => Some((x * 16 + y) as byte)
    case _ => None
  }

  lemma PairRoundTrip(b: byte)
    ensures PairValue(HighDigit(b), LowDigit(b)) == Some(b)
  {
    DigitRoundTrip(b as int / 16);
    DigitRoundTrip(b as int % 16);
  }

  lemma DigitRoundTrip(d: int)
    requires 0 <= d < 16
    ensures DigitValue(DigitChar(d)) == Some(d)
  {
  }

  function HexEncode(bytes: seq<byte>): (s: string)
    ensures |s| == 2 * |bytes|
  {
    if bytes == [] then "" else
    var b := bytes[|bytes| - 1];
    HexEncode(bytes[..|bytes| - 1]) + [HighDigit(b), LowDigit(b)]
  }

  /** Both cases are read; an odd length or another character is an error. */
  function HexDecode(s: string): Option<seq<byte>> {
    if s == "" then Some([]) else
    if |s| == 1 then None else
    match (HexDecode(s[..|s| - 2]), PairValue(s[|s| - 2], s[|s| - 1]))
    case (Some(rest), Some(b)) => Some(rest + [b])
    case _ => None
  }

  lemma HexDecodeTwoMore(s: string, h: char, l: char)
    requires HexDecode(s).Some? && PairValue(h, l).Some?
    ensures HexDecode(s + [h, l]) == Some(HexDecode(s).value + [PairValue(h, l).value])
  {
    hide PairValue;
    var t := s + [h, l];
    assert t[..|t| - 2] == s;
  }

  lemma {:induction false} HexRoundTrip(bytes: seq<byte>)
    ensures HexDecode(HexEncode(bytes)) == Some(bytes)
  {
    if bytes != [] {
      var most, b := bytes[..|bytes| - 1], bytes[|bytes| - 1];
      assert HexEncode(bytes) == HexEncode(most) + [HighDigit(b), LowDigit(b)];
      assert bytes == most + [b];
      hide *;
      HexRoundTrip(most);
      PairRoundTrip(b);
      HexDecodeTwoMore(HexEncode(most), HighDigit(b), LowDigit(b));
    }
  }

  /** The prefix 0x or 0X is dropped first. */
  function Hex2Bytes(s: string): Option<seq<byte>> {
    if |s| >= 2 && s[0] == '0' && (s[1] == 'x' || s[1] == 'X') then HexDecode(s[2..]) else HexDecode(s)
  }

  /** Too few bytes are padded with zeros at the end, too many are cut off. */
  function Padded(b: seq<byte>): Address {
    if |b| >= 20 then b[..20] else b + seq(20 - |b|, _ => 0)
  }

  function Hex2Addr(s: string): Option<Address> {
    match Hex2Bytes(s) case None => None case Some(b) => Some(Padded(b))
  }

  lemma PrefixedRoundTrip(bytes: seq<byte>)
    ensures Hex2Bytes("0x" + HexEncode(bytes)) == Some(bytes)
    ensures |bytes| == 20 ==> Hex2Addr("0x" + HexEncode(bytes)) == Some(bytes)
  {
    HexRoundTrip(bytes);
    assert ("0x" + HexEncode(bytes))[2..] == HexEncode(bytes);
    if |bytes| == 20 { assert bytes[..20] == bytes; }
  }

  // --------------------------------------------------------------------------- decimal

  function Decimal(n: nat): (s: string)
    ensures |s| > 0
    decreases n
  {
    if n < 10 then [DigitChar(n)] else Decimal(n / 10) + [DigitChar(n % 10)]
  }

  /** The value of a string of decimal digits; None when it is empty or holds anything else. */
  function DecimalValue(s: string): Option<nat> {
    if s == "" then None else
    var c := s[|s| - 1];
    if !('0' <= c <= '9') then None else
    var d: nat := c as int - '0' as int;
    if |s| == 1 then Some(d) else
    match DecimalValue(s[..|s| - 1])
    case None => None
    case Some(n) => Some(10 * n + d)
  }

  lemma {:induction false} DecimalRoundTrip(n: nat)
    ensures DecimalValue(Decimal(n)) == Some(n)
    decreases n
  {
    if n >= 10 {
      DecimalRoundTrip(n / 10);
      var s := Decimal(n);
      assert s[..|s| - 1] == Decimal(n / 10) && s[|s| - 1] == DigitChar(n % 10);
    }
  }

  /** Zero-padded to at least the given width, as %03d prints it. */
  function PadLeft(s: string, width: nat): string
    decreases width - |s|
  {
    if |s| >= width then s else PadLeft("0" + s, width)
  }

  lemma {:induction false} LeadingZero(s: string)
    requires DecimalValue(s).Some?
    ensures DecimalValue("0" + s) == DecimalValue(s)
  {
    var z := "0" + s;
    if |s| == 1 {
      assert z[..1] == "0";
    } else {
      assert z[..|z| - 1] == "0" + s[..|s| - 1];
      LeadingZero(s[..|s| - 1]);
    }
  }

  lemma {:induction false} PadLeftValue(s: string, width: nat)
    requires DecimalValue(s).Some?
    ensures DecimalValue(PadLeft(s, width)) == DecimalValue(s)
    decreases width - |s|
  {
    if |s| < width {
      LeadingZero(s);
      PadLeftValue("0" + s, width);
    }
  }

  /** Different numbers print differently, padded or not. */
  lemma PaddedIsInjective(m: nat, n: nat, width: nat)
    requires PadLeft(Decimal(m), width) == PadLeft(Decimal(n), width)
    ensures m == n
  {
    DecimalRoundTrip(m);
    DecimalRoundTrip(n);
    PadLeftValue(Decimal(m), width);
    PadLeftValue(Decimal(n), width);
  }
}
