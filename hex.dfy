/**
 * Hexadecimal text and bytes, as the identifier codec uses them:
 * `parseInt(pair, 16)` on two hex digits and `Buffer.toString('hex')`.
 */
module Hex {

  type byte = x: int | 0 <= x < 256
  type nibble = x: int | 0 <= x < 16

  /** A digit `parseInt(_, 16)` accepts, in either case. */
  predicate IsHexDigit(c: char)
  {
    ('0' <= c <= '9') || ('a' <= c <= 'f') || ('A' <= c <= 'F')
  }

  predicate AllHex(s: string)
  {
    forall i :: 0 <= i < |s| ==> IsHexDigit(s[i])
  }

  function HexValue(c: char): (n: nibble)
    requires IsHexDigit(c)
  {
    if '0' <= c <= '9' then c as int - '0' as int
    else if 'a' <= c <= 'f' then c as int - 'a' as int + 10
    else c as int - 'A' as int + 10
  }

  /** The lower-case digit of a nibble, as in `'0123456789abcdef'[n]`. */
  function HexDigit(n: nibble): (c: char)
    ensures IsHexDigit(c) && HexValue(c) == n
    ensures ('0' <= c <= '9') || ('a' <= c <= 'f')
  {
    if n < 10 then ('0' as int + n) as char else ('a' as int + n - 10) as char
  }

  /** A lower-case digit is the digit of its own value. */
  lemma HexDigitOfValue(c: char)
    requires ('0' <= c <= '9') || ('a' <= c <= 'f')
    ensures HexDigit(HexValue(c)) == c
  {
  }

  /** The nibble values of a run of hex digits. */
  function Nibbles(s: string): (ns: seq<nibble>)
    requires AllHex(s)
    ensures |ns| == |s|
    ensures forall i :: 0 <= i < |s| ==> ns[i] == HexValue(s[i])
  {
    if s == [] then [] else [HexValue(s[0])] + Nibbles(s[1..])
  }

  /** The lower-case digits of a run of nibbles. */
  function Digits(ns: seq<nibble>): (s: string)
    ensures |s| == |ns|
    ensures forall i :: 0 <= i < |ns| ==> s[i] == HexDigit(ns[i])
  {
    if ns == [] then [] else [HexDigit(ns[0])] + Digits(ns[1..])
  }

  lemma {:induction false} NibblesOfDigits(ns: seq<nibble>)
    ensures AllHex(Digits(ns)) && Nibbles(Digits(ns)) == ns
  {
    assert AllHex(Digits(ns));
  }

  /** Two nibbles make a byte, high nibble first. */
  function PairByte(hi: nibble, lo: nibble): byte
  {
    hi * 16 + lo
  }

  lemma PairByteSplit(hi: nibble, lo: nibble)
    ensures PairByte(hi, lo) / 16 == hi && PairByte(hi, lo) % 16 == lo
  {
  }

  /** Nibbles paired into bytes, high nibble first; a trailing odd nibble is dropped. */
  function Pack(ns: seq<nibble>): (bs: seq<byte>)
    ensures 2 * |bs| <= |ns| < 2 * |bs| + 2
  {
    if |ns| < 2 then [] else [PairByte(ns[0], ns[1])] + Pack(ns[2..])
  }

  /** Each byte split into its two nibbles, high nibble first. */
  function Unpack(bs: seq<byte>): (ns: seq<nibble>)
    ensures |ns| == 2 * |bs|
    ensures forall k :: 0 <= k < |bs| ==> ns[2 * k] == bs[k] / 16 && ns[2 * k + 1] == bs[k] % 16
  {
    if bs == [] then [] else [bs[0] / 16, bs[0] % 16] + Unpack(bs[1..])
  }

  /** Splitting packed nibbles gives the nibbles back, up to a trailing odd one. */
  lemma {:induction false} UnpackPack(ns: seq<nibble>)
    ensures Unpack(Pack(ns)) == ns[..2 * |Pack(ns)|]
    decreases |ns|
  {
    if |ns| >= 2 {
      UnpackPack(ns[2..]);
      var p := Pack(ns);
      assert p[1..] == Pack(ns[2..]);
      PairByteSplit(ns[0], ns[1]);
      assert Unpack(p) == [ns[0], ns[1]] + Unpack(p[1..]);
      assert ns[..2 * |p|] == [ns[0], ns[1]] + ns[2..][..2 * |p[1..]|];
    }
  }

  /** Packing split bytes gives the bytes back. */
  lemma PackUnpack(bs: seq<byte>)
    ensures Pack(Unpack(bs)) == bs
  {
  }

  /** `Buffer.from(bytes).toString('hex')`: two lower-case digits per byte. */
  function ToHex(bs: seq<byte>): (s: string)
    ensures |s| == 2 * |bs|
  {
    Digits(Unpack(bs))
  }

  /**
   * A white-space or line-terminator character, which `parseInt` skips
   * before the number.
   */
  predicate IsJsWhiteSpace(c: char)
  {
    || c == '\t' || c == '\n' || c == '\U{000B}' || c == '\U{000C}' || c == '\r' || c == ' '
    || c == '\U{00A0}' || c == '\U{1680}' || ('\U{2000}' <= c <= '\U{200A}')
    || c == '\U{2028}' || c == '\U{2029}' || c == '\U{202F}' || c == '\U{205F}'
    || c == '\U{3000}' || c == '\U{FEFF}'
  }

  /**
   * `parseInt(a + b, 16)` stored into a byte array (`NaN` becomes 0, a
   * negative value wraps modulo 256). `parseInt` reads leading white space,
   * an optional sign, then as many hex digits as there are; with no digit
   * the result is `NaN`. The text `0x` is read as a prefix with no digit
   * after it, which gives `NaN`, i.e. 0 — the same byte as reading the `0`.
   */
  function ParseIntPair(a: char, b: char): byte
  {
    if IsHexDigit(a) then
      if IsHexDigit(b) then PairByte(HexValue(a), HexValue(b)) else HexValue(a)
    else if IsJsWhiteSpace(a) || a == '+' then
      if IsHexDigit(b) then HexValue(b) else 0
    else if a == '-' then
      if IsHexDigit(b) then (256 - HexValue(b)) % 256 else 0
    else 0
  }

  /**
   * The bytes `parseInt(s.slice(i, i + 2), 16)` for `i = 0, 2, 4, ...` while
   * `i < |s| - 1`: complete pairs only.
   */
  function PairBytes(s: string): (bs: seq<byte>)
    ensures 2 * |bs| <= |s| < 2 * |bs| + 2
  {
    if |s| < 2 then [] else [ParseIntPair(s[0], s[1])] + PairBytes(s[2..])
  }

  /** On hex digits, pair parsing packs their nibbles (a trailing odd digit is ignored). */
  lemma {:induction false} PairBytesOfHex(s: string)
    requires AllHex(s)
    ensures PairBytes(s) == Pack(Nibbles(s))
    decreases |s|
  {
    if |s| >= 2 {
      PairBytesOfHex(s[2..]);
      assert Nibbles(s)[2..] == Nibbles(s[2..]);
    }
  }

  /** Each byte of the pair parsing depends only on its own two characters. */
  lemma {:induction false} PairBytesAppend(a: string, b: string)
    requires |a| % 2 == 0
    ensures PairBytes(a + b) == PairBytes(a) + PairBytes(b)
    decreases |a|
  {
    if a == [] {
      assert a + b == b;
    } else {
      assert (a + b)[2..] == a[2..] + b;
      PairBytesAppend(a[2..], b);
    }
  }

  /** One more complete pair adds one more byte. */
  lemma PairBytesSnoc(s: string, i: nat)
    requires i % 2 == 0 && i + 2 <= |s|
    ensures PairBytes(s[..i + 2]) == PairBytes(s[..i]) + [ParseIntPair(s[i], s[i + 1])]
  {
    assert s[..i + 2] == s[..i] + s[i..i + 2];
    PairBytesAppend(s[..i], s[i..i + 2]);
  }

  /** A last unpaired character adds nothing. */
  lemma PairBytesEnd(s: string, i: nat)
    requires i % 2 == 0 && |s| - 1 <= i <= |s|
    ensures PairBytes(s[..i]) == PairBytes(s)
  {
    assert s == s[..i] + s[i..];
    PairBytesAppend(s[..i], s[i..]);
    assert PairBytes(s[..i]) + [] == PairBytes(s[..i]);
  }

  lemma NibblesAppend(a: string, b: string)
    requires AllHex(a) && AllHex(b)
    ensures AllHex(a + b) && Nibbles(a + b) == Nibbles(a) + Nibbles(b)
  {
    assert AllHex(a + b);
  }

  /** A trailing odd nibble does not reach the packed bytes. */
  lemma {:induction false} PackDropsOdd(ns: seq<nibble>, x: nibble)
    requires |ns| % 2 == 0
    ensures Pack(ns + [x]) == Pack(ns)
    decreases |ns|
  {
    if |ns| >= 2 {
      assert (ns + [x])[2..] == ns[2..] + [x];
      PackDropsOdd(ns[2..], x);
    }
  }

  /** A lower-case hex digit. */
  predicate IsLowerHex(c: char)
  {
    ('0' <= c <= '9') || ('a' <= c <= 'f')
  }

  /** Lower-case digits are the digits of their own nibbles. */
  lemma DigitsOfNibbles(s: string)
    requires forall i :: 0 <= i < |s| ==> IsLowerHex(s[i])
    ensures AllHex(s) && Digits(Nibbles(s)) == s
  {
    forall i | 0 <= i < |s| ensures Digits(Nibbles(s))[i] == s[i] {
      HexDigitOfValue(s[i]);
    }
  }
}
