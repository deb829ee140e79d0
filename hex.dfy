/**
 * Byte strings and their "0x"-prefixed hexadecimal form, as produced by viem's
 * `toHex` on a `Uint8Array`: two lower-case hex digits per byte, most
 * significant nibble first. Since the model needs an inverse to state what
 * `toHex` preserves, `FromHex` reads such a string back.
 */
module Hex {

  import opened Wrappers
  import Ecma

  newtype byte = x: int | 0 <= x < 256

  type Bytes = seq<byte>

  predicate IsLowerHexDigit(c: char) {
    '0' <= c <= '9' || 'a' <= c <= 'f'
  }

  function HexDigit(d: nat): (c: char)
    requires d < 16
    ensures IsLowerHexDigit(c) && Ecma.IsDigit(c, 16) && Ecma.DigitOf(c) == d
  {
    if d < 10 then ('0' as int + d) as char else ('a' as int + d - 10) as char
  }

  /** The hex digits of `bs`, two per byte. */
  function HexDigits(bs: Bytes): (s: string)
    ensures |s| == 2 * |bs|
    ensures forall k :: 0 <= k < |s| ==> IsLowerHexDigit(s[k])
  {
    if bs == [] then []
    else
      var s := [HexDigit(bs[0] as int / 16), HexDigit(bs[0] as int % 16)] + HexDigits(bs[1..]);
      assert forall k :: 2 <= k < |s| ==> s[k] == HexDigits(bs[1..])[k - 2];
      s
  }

  /** viem's toHex on a byte array: "0x" then two lower-case hex digits per byte. */
  function ToHex(bs: Bytes): (s: string)
    ensures |s| == 2 + 2 * |bs| && s[..2] == "0x"
    ensures forall k :: 2 <= k < |s| ==> IsLowerHexDigit(s[k])
  {
    var s := "0x" + HexDigits(bs);
    assert forall k :: 2 <= k < |s| ==> s[k] == HexDigits(bs)[k - 2];
    s
  }

  /** Reads pairs of hex digits (either case) into bytes; None when the text is not such pairs. */
  function HexPairs(s: string): Option<Bytes> {
    if s == [] then Some([])
    else if |s| < 2 || !Ecma.IsDigit(s[0], 16) || !Ecma.IsDigit(s[1], 16) then None
    else
      match HexPairs(s[2..])
      case None => None
      case Some(rest) => Some([(Ecma.DigitOf(s[0]) * 16 + Ecma.DigitOf(s[1])) as byte] + rest)
  }

  /** Reads back a "0x"-prefixed hex string. */
  function FromHex(s: string): Option<Bytes> {
    if |s| >= 2 && s[..2] == "0x" then HexPairs(s[2..]) else None
  }

  lemma {:induction false} HexPairsOfHexDigits(bs: Bytes)
    ensures HexPairs(HexDigits(bs)) == Some(bs)
  {
    if bs != [] {
      var s := HexDigits(bs);
      assert s[2..] == HexDigits(bs[1..]);
      HexPairsOfHexDigits(bs[1..]);
      assert [bs[0]] + bs[1..] == bs;
    }
  }

  /** toHex loses nothing: the bytes can be read back from its result. */
  lemma ToHexRoundTrip(bs: Bytes)
    ensures FromHex(ToHex(bs)) == Some(bs)
  {
    assert ToHex(bs)[2..] == HexDigits(bs);
    HexPairsOfHexDigits(bs);
  }

  /** Different byte strings have different hex forms. */
  lemma ToHexInjective(a: Bytes, b: Bytes)
    ensures ToHex(a) == ToHex(b) ==> a == b
  {
    ToHexRoundTrip(a);
    ToHexRoundTrip(b);
  }
}
