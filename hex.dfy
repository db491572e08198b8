/** Lower-case hexadecimal, as Node's `Buffer.toString('hex')` writes bytes. */
module Hex {
  import opened Common

  type Byte = b: int | 0 <= b < 256

  /** The characters `Buffer.toString('hex')` can produce. */
  predicate IsHexDigit(c: char)
  {
    '0' <= c <= '9' || 'a' <= c <= 'f'
  }

  /** The lower-case digit for a nibble. */
  function DigitChar(n: int): (c: char)
    requires 0 <= n < 16
    ensures IsHexDigit(c)
  {
    if n < 10 then ('0' as int + n) as char else ('a' as int + n - 10) as char
  }

  /** The value of one hex digit, absent for any other character. */
  function DigitValue(c: char): (v: Option<int>)
    ensures v.Some? <==> IsHexDigit(c)
    ensures v.Some? ==> 0 <= v.value < 16 && DigitChar(v.value) == c
  {
    if '0' <= c <= '9' then Some(c as int - '0' as int)
    else if 'a' <= c <= 'f' then Some(c as int - 'a' as int + 10)
    else None
  }

  /** Two lower-case hex digits per byte, high nibble first. */
  function Encode(bs: seq<Byte>): (s: string)
    ensures |s| == 2 * |bs|
    ensures forall i :: 0 <= i < |s| ==> IsHexDigit(s[i])
  {
    if bs == [] then ""
    else [DigitChar(bs[0] / 16), DigitChar(bs[0] % 16)] + Encode(bs[1..])
  }

  /** Reads pairs of hex digits back into bytes; an odd length or a non-digit fails. */
  function Decode(s: string): (bs: Option<seq<Byte>>)
  {
    if s == [] then Some([])
    else if |s| == 1 then None
    else
      var hi, lo, rest := DigitValue(s[0]), DigitValue(s[1]), Decode(s[2..]);
      if hi.Some? && lo.Some? && rest.Some? then Some([hi.value * 16 + lo.value] + rest.value)
      else None
  }

  lemma DigitValueOfDigit(n: int)
    requires 0 <= n < 16
    ensures DigitValue(DigitChar(n)) == Some(n)
  {
  }

  /** Two digits in front of a decodable text decode to one more byte. */
  lemma DecodeCons(hi: int, lo: int, t: string)
    requires 0 <= hi < 16 && 0 <= lo < 16
    requires Decode(t).Some?
    ensures Decode([DigitChar(hi), DigitChar(lo)] + t) == Some([hi * 16 + lo] + Decode(t).value)
  {
    var s := [DigitChar(hi), DigitChar(lo)] + t;
    DigitValueOfDigit(hi);
    DigitValueOfDigit(lo);
    assert s[0] == DigitChar(hi) && s[1] == DigitChar(lo) && s[2..] == t;
  }

  lemma Nibbles(b: Byte)
    ensures 0 <= b / 16 < 16 && 0 <= b % 16 < 16 && b / 16 * 16 + b % 16 == b
  {
  }

  /** Decoding undoes encoding, so distinct byte strings get distinct hex texts. */
  lemma {:induction false} DecodeEncode(bs: seq<Byte>)
    ensures Decode(Encode(bs)) == Some(bs)
  {
    if bs != [] {
      var b := bs[0];
      Nibbles(b);
      DecodeEncode(bs[1..]);
      DecodeCons(b / 16, b % 16, Encode(bs[1..]));
      assert [b] + bs[1..] == bs;
    }
  }
}
