/**
 * The signature text the payment webhook expects: each byte of the
 * HMAC-SHA256 as `b.toString(16).padStart(2, '0')`, joined. That is the
 * base16 encoding of section 8 of RFC 4648, written with lowercase digits.
 */
module Hex {
  import opened Wrappers

  newtype byte = x: int | 0 <= x < 256

  predicate IsLowerHexDigit(c: char) {
    '0' <= c <= '9' || 'a' <= c <= 'f'
  }

  predicate IsLowerHex(s: string) {
    forall i :: 0 <= i < |s| ==> IsLowerHexDigit(s[i])
  }

  function Digit(n: nat): (c: char)
    requires n < 16
    ensures IsLowerHexDigit(c)
  {
    if n < 10 then ('0' as int + n) as char else ('a' as int + n - 10) as char
  }

  function DigitValue(c: char): (n: nat)
    requires IsLowerHexDigit(c)
    ensures n < 16 && Digit(n) == c
  {
    if c <= '9' then c as int - '0' as int else c as int - 'a' as int + 10
  }

  lemma DigitInjective(m: nat, n: nat)
    requires m < 16 && n < 16 && Digit(m) == Digit(n)
    ensures m == n
  {
  }

  /** `n.toString(16)`: lowercase base-16 digits without leading zeros. */
  function ToBase16(n: nat): (s: string)
    ensures 1 <= |s| && IsLowerHex(s)
    ensures |s| == 1 <==> n < 16
  {
    if n < 16 then [Digit(n)] else ToBase16(n / 16) + [Digit(n % 16)]
  }

  /** `s.padStart(width, fill)`. */
  function PadStart(s: string, width: nat, fill: char): (r: string)
    ensures |r| == if |s| >= width then |s| else width
    ensures r[|r| - |s|..] == s
    ensures forall i :: 0 <= i < |r| - |s| ==> r[i] == fill
    decreases width - |s|
  {
    if |s| >= width then s else PadStart([fill] + s, width, fill)
  }

  /** One byte as two lowercase digits, the high one first. */
  function ByteToHex(b: byte): (s: string)
    ensures |s| == 2 && IsLowerHex(s)
  {
    [Digit(b as nat / 16), Digit(b as nat % 16)]
  }

  /** The base16 text of a byte string. */
  function Encode(bytes: seq<byte>): (s: string)
    ensures |s| == 2 * |bytes|
    ensures IsLowerHex(s)
  {
    if bytes == [] then "" else ByteToHex(bytes[0]) + Encode(bytes[1..])
  }

  /** `b.toString(16).padStart(2, '0')`, as the webhook writes each byte: always exactly the two digits. */
  function PaddedHex(b: byte): (s: string)
    ensures s == ByteToHex(b)
  {
    var t := ToBase16(b as nat);
    assert b < 16 ==> t == [Digit(b as nat)];
    assert b >= 16 ==> t == ToBase16(b as nat / 16) + [Digit(b as nat % 16)];
    PadStart(t, 2, '0')
  }

  /** `Array.from(bytes).map(b => b.toString(16).padStart(2, '0')).join('')`: the base16 text. */
  function SignatureText(bytes: seq<byte>): (s: string)
    ensures s == Encode(bytes)
  {
    if bytes == [] then "" else PaddedHex(bytes[0]) + SignatureText(bytes[1..])
  }

  /** The byte two lowercase digits stand for. */
  function ByteOf(hi: char, lo: char): byte
    requires IsLowerHexDigit(hi) && IsLowerHexDigit(lo)
  {
    (DigitValue(hi) * 16 + DigitValue(lo)) as byte
  }

  lemma ByteOfHex(b: byte)
    ensures ByteOf(ByteToHex(b)[0], ByteToHex(b)[1]) == b
  {
    var h, l := b as nat / 16, b as nat % 16;
    DigitInjective(DigitValue(Digit(h)), h);
    DigitInjective(DigitValue(Digit(l)), l);
  }

  lemma HexOfByte(hi: char, lo: char)
    requires IsLowerHexDigit(hi) && IsLowerHexDigit(lo)
    ensures ByteToHex(ByteOf(hi, lo)) == [hi, lo]
  {
    var b := ByteOf(hi, lo);
    assert b as nat / 16 == DigitValue(hi) && b as nat % 16 == DigitValue(lo);
  }

  /** The inverse: pairs of lowercase digits back to bytes; anything else is not an encoding. */
  function Decode(s: string): (r: Option<seq<byte>>)
    decreases |s|
  {
    if s == [] then Some([])
    else if |s| < 2 || !IsLowerHexDigit(s[0]) || !IsLowerHexDigit(s[1]) then None
    else
      match Decode(s[2..])
      case None => None
      case Some(rest) => Some([ByteOf(s[0], s[1])] + rest)
  }

  /** Decoding an encoding gives the bytes back. */
  lemma {:induction false} DecodeEncode(bytes: seq<byte>)
    ensures Decode(Encode(bytes)) == Some(bytes)
  {
    if bytes != [] {
      var s := Encode(bytes);
      var pair := ByteToHex(bytes[0]);
      assert s == pair + Encode(bytes[1..]);
      assert s[0] == pair[0] && s[1] == pair[1];
      assert s[2..] == Encode(bytes[1..]);
      DecodeEncode(bytes[1..]);
      ByteOfHex(bytes[0]);
      assert [bytes[0]] + bytes[1..] == bytes;
    }
  }

  /** Every string that decodes is the encoding of what it decodes to. */
  lemma {:induction false} EncodeDecode(s: string)
    requires Decode(s).Some?
    ensures Encode(Decode(s).value) == s
    decreases |s|
  {
    if s != [] {
      var rest := Decode(s[2..]).value;
      EncodeDecode(s[2..]);
      var b := ByteOf(s[0], s[1]);
      assert Decode(s).value == [b] + rest;
      assert ([b] + rest)[1..] == rest;
      HexOfByte(s[0], s[1]);
      assert s == [s[0], s[1]] + s[2..];
    }
  }

  /** Every even-length lowercase hex text decodes, so the encoding is onto such text. */
  lemma {:induction false} EvenHexDecodes(s: string)
    requires IsLowerHex(s) && |s| % 2 == 0
    ensures Decode(s).Some?
    decreases |s|
  {
    if s != [] {
      assert IsLowerHexDigit(s[0]) && IsLowerHexDigit(s[1]);
      assert forall i :: 0 <= i < |s[2..]| ==> s[2..][i] == s[i + 2];
      EvenHexDecodes(s[2..]);
    }
  }

  /** Two different byte strings never have the same signature text. */
  lemma EncodeInjective(a: seq<byte>, b: seq<byte>)
    requires Encode(a) == Encode(b)
    ensures a == b
  {
    DecodeEncode(a);
    DecodeEncode(b);
  }
}
