/**
 * Standard base64 (section 4 of RFC 4648) as Node's `Buffer` writes it, and
 * Node's decoder, which reads the text up to its first `=`, skips characters
 * outside its alphabet and turns every complete 8 bits into a byte.
 *
 * Three views of the same bits meet here: bytes, 6-bit symbol values
 * (sextets) and hex nibbles. Three bytes are four sextets; three nibbles
 * are two sextets (`Triples`, and its inverse `Untriple`).
 */
module Base64 {
  import opened Hex

  type sextet = x: int | 0 <= x < 64

  /** A symbol of the alphabet `A-Z a-z 0-9 + /`. */
  predicate IsSymbol(c: char)
  {
    ('A' <= c <= 'Z') || ('a' <= c <= 'z') || ('0' <= c <= '9') || c == '+' || c == '/'
  }

  predicate AllSymbols(s: string)
  {
    forall i :: 0 <= i < |s| ==> IsSymbol(s[i])
  }

  /** The position of a symbol in the alphabet. */
  function SymbolValue(c: char): sextet
    requires IsSymbol(c)
  {
    if 'A' <= c <= 'Z' then c as int - 'A' as int
    else if 'a' <= c <= 'z' then c as int - 'a' as int + 26
    else if '0' <= c <= '9' then c as int - '0' as int + 52
    else if c == '+' then 62
    else 63
  }

  /** The symbol at a position of the alphabet. */
  function Symbol(x: sextet): (c: char)
    ensures IsSymbol(c) && SymbolValue(c) == x
  {
    if x < 26 then ('A' as int + x) as char
    else if x < 52 then ('a' as int + x - 26) as char
    else if x < 62 then ('0' as int + x - 52) as char
    else if x == 62 then '+'
    else '/'
  }

  /** Every symbol is the symbol of its own value. */
  lemma SymbolOfValue(c: char)
    requires IsSymbol(c)
    ensures Symbol(SymbolValue(c)) == c
  {
  }

  function Symbols(xs: seq<sextet>): (s: string)
    ensures |s| == |xs|
    ensures forall i :: 0 <= i < |xs| ==> s[i] == Symbol(xs[i])
  {
    if xs == [] then [] else [Symbol(xs[0])] + Symbols(xs[1..])
  }

  function Values(s: string): (xs: seq<sextet>)
    requires AllSymbols(s)
    ensures |xs| == |s|
    ensures forall i :: 0 <= i < |s| ==> xs[i] == SymbolValue(s[i])
  {
    if s == [] then [] else [SymbolValue(s[0])] + Values(s[1..])
  }

  lemma SymbolsAppend(a: seq<sextet>, b: seq<sextet>)
    ensures Symbols(a + b) == Symbols(a) + Symbols(b)
  {
    assert forall i :: 0 <= i < |a + b| ==> Symbols(a + b)[i] == (Symbols(a) + Symbols(b))[i];
  }

  /** Values and symbols are inverse to each other. */
  lemma ValuesOfSymbols(xs: seq<sextet>)
    ensures AllSymbols(Symbols(xs)) && Values(Symbols(xs)) == xs
  {
  }

  lemma SymbolsOfValues(s: string)
    requires AllSymbols(s)
    ensures Symbols(Values(s)) == s
  {
    forall i | 0 <= i < |s| ensures Symbols(Values(s))[i] == s[i] {
      SymbolOfValue(s[i]);
    }
  }

  // ---------------------------------------------------------------------
  // One group: three bytes and four sextets

  function S0(b0: byte): sextet { b0 / 4 }
  function S1(b0: byte, b1: byte): sextet { b0 % 4 * 16 + b1 / 16 }
  function S2(b1: byte, b2: byte): sextet { b1 % 16 * 4 + b2 / 64 }
  function S3(b2: byte): sextet { b2 % 64 }

  function D0(x0: sextet, x1: sextet): byte { x0 * 4 + x1 / 16 }
  function D1(x1: sextet, x2: sextet): byte { x1 % 16 * 16 + x2 / 4 }
  function D2(x2: sextet, x3: sextet): byte { x2 % 4 * 64 + x3 }

  lemma GroupRoundTrip(b0: byte, b1: byte, b2: byte)
    ensures D0(S0(b0), S1(b0, b1)) == b0
    ensures D1(S1(b0, b1), S2(b1, b2)) == b1
    ensures D2(S2(b1, b2), S3(b2)) == b2
  {
    assert b0 == 4 * (b0 / 4) + b0 % 4;
    assert b1 == 16 * (b1 / 16) + b1 % 16;
    assert b2 == 64 * (b2 / 64) + b2 % 64;
  }

  // ---------------------------------------------------------------------
  // Encoding

  /** Three bytes as four symbols. */
  function EncodeGroup(b0: byte, b1: byte, b2: byte): string
  {
    [Symbol(S0(b0)), Symbol(S1(b0, b1)), Symbol(S2(b1, b2)), Symbol(S3(b2))]
  }

  /** `Buffer.from(bytes).toString('base64')`: padded with `=` to a multiple of four. */
  function Encode(bs: seq<byte>): string
  {
    if |bs| == 0 then ""
    else if |bs| == 1 then [Symbol(S0(bs[0])), Symbol(S1(bs[0], 0)), '=', '=']
    else if |bs| == 2 then [Symbol(S0(bs[0])), Symbol(S1(bs[0], bs[1])), Symbol(S2(bs[1], 0)), '=']
    else EncodeGroup(bs[0], bs[1], bs[2]) + Encode(bs[3..])
  }

  /** Four characters for every three bytes or part of three. */
  lemma {:induction false} EncodeLength(bs: seq<byte>)
    ensures |Encode(bs)| == 4 * ((|bs| + 2) / 3)
    decreases |bs|
  {
    if |bs| >= 3 {
      EncodeLength(bs[3..]);
    }
  }

  /** The first two symbols of an encoding of two or more bytes carry the first twelve bits. */
  lemma EncodeFirstTwo(bs: seq<byte>)
    requires |bs| >= 2
    ensures Encode(bs)[..2] == [Symbol(S0(bs[0])), Symbol(S1(bs[0], bs[1]))]
  {
  }

  // ---------------------------------------------------------------------
  // Decoding

  /** A character Node's decoder reads: the alphabet and its URL-safe variants `-` and `_`. */
  predicate IsDecodable(c: char)
  {
    IsSymbol(c) || c == '-' || c == '_'
  }

  function DecodableValue(c: char): sextet
    requires IsDecodable(c)
  {
    if c == '-' then 62 else if c == '_' then 63 else SymbolValue(c)
  }

  /** The sextets Node's decoder reads: up to the first `=`, other characters skipped. */
  function ReadSextets(s: string): (xs: seq<sextet>)
    ensures |xs| <= |s|
  {
    if s == [] || s[0] == '=' then []
    else if IsDecodable(s[0]) then [DecodableValue(s[0])] + ReadSextets(s[1..])
    else ReadSextets(s[1..])
  }

  /** Four sextets back to three bytes; a final group of 3, 2 or 1 sextets gives 2, 1 or 0 bytes. */
  function DecodeValues(xs: seq<sextet>): seq<byte>
  {
    if |xs| < 2 then []
    else if |xs| == 2 then [D0(xs[0], xs[1])]
    else if |xs| == 3 then [D0(xs[0], xs[1]), D1(xs[1], xs[2])]
    else [D0(xs[0], xs[1]), D1(xs[1], xs[2]), D2(xs[2], xs[3])] + DecodeValues(xs[4..])
  }

  /** Every complete 8 bits of the sextets make a byte. */
  lemma {:induction false} DecodeValuesLength(xs: seq<sextet>)
    ensures |DecodeValues(xs)| == (6 * |xs|) / 8
    decreases |xs|
  {
    if |xs| >= 4 {
      DecodeValuesLength(xs[4..]);
    }
  }

  /** `Buffer.from(s, 'base64')`. */
  function Decode(s: string): seq<byte>
  {
    DecodeValues(ReadSextets(s))
  }

  lemma {:induction false} ReadSextetsOfSymbols(xs: seq<sextet>, rest: string)
    ensures ReadSextets(Symbols(xs) + rest) == xs + ReadSextets(rest)
    decreases |xs|
  {
    if xs != [] {
      var t := Symbols(xs) + rest;
      assert t[0] == Symbol(xs[0]);
      assert IsDecodable(t[0]) && t[0] != '=' && DecodableValue(t[0]) == xs[0];
      assert ReadSextets(t) == [xs[0]] + ReadSextets(t[1..]);
      assert t[1..] == Symbols(xs[1..]) + rest;
      ReadSextetsOfSymbols(xs[1..], rest);
      assert xs == [xs[0]] + xs[1..];
    } else {
      assert Symbols(xs) + rest == rest;
    }
  }

  /** Reading stops at the first `=`: text that starts with one adds nothing. */
  lemma {:induction false} ReadSextetsStopAtPadding(s: string, pad: string)
    requires pad == "" || pad[0] == '='
    ensures ReadSextets(s + pad) == ReadSextets(s)
    decreases |s|
  {
    if s == [] {
      assert s + pad == pad;
    } else {
      assert (s + pad)[0] == s[0];
      assert (s + pad)[1..] == s[1..] + pad;
      ReadSextetsStopAtPadding(s[1..], pad);
    }
  }

  /** `=` characters added to any text do not change what is decoded. */
  lemma DecodeIgnoresPadding(s: string, pad: string)
    requires pad == "" || pad[0] == '='
    ensures Decode(s + pad) == Decode(s)
  {
    ReadSextetsStopAtPadding(s, pad);
  }

  /** Decoding the encoding of any bytes gives them back. */
  lemma {:induction false} DecodeEncode(bs: seq<byte>)
    ensures Decode(Encode(bs)) == bs
    decreases |bs|
  {
    if |bs| == 1 {
      DecodeEncodeOne(bs[0]);
      assert bs == [bs[0]];
    } else if |bs| == 2 {
      DecodeEncodeTwo(bs[0], bs[1]);
      assert bs == [bs[0], bs[1]];
    } else if |bs| >= 3 {
      DecodeEncode(bs[3..]);
      DecodeEncodeGroup(bs[0], bs[1], bs[2], bs[3..]);
      assert bs == [bs[0], bs[1], bs[2]] + bs[3..];
    }
  }

  lemma DecodeEncodeOne(b0: byte)
    ensures Decode(Encode([b0])) == [b0]
  {
    var xs := [S0(b0), S1(b0, 0)];
    assert Encode([b0]) == Symbols(xs) + "==";
    ReadSextetsOfSymbols(xs, "==");
    assert ReadSextets(Encode([b0])) == xs;
    GroupRoundTrip(b0, 0, 0);
  }

  lemma DecodeEncodeTwo(b0: byte, b1: byte)
    ensures Decode(Encode([b0, b1])) == [b0, b1]
  {
    var xs := [S0(b0), S1(b0, b1), S2(b1, 0)];
    assert Encode([b0, b1]) == Symbols(xs) + "=";
    ReadSextetsOfSymbols(xs, "=");
    assert ReadSextets(Encode([b0, b1])) == xs;
    GroupRoundTrip(b0, b1, 0);
  }

  lemma DecodeEncodeGroup(b0: byte, b1: byte, b2: byte, rest: seq<byte>)
    ensures Decode(Encode([b0, b1, b2] + rest)) == [b0, b1, b2] + Decode(Encode(rest))
  {
    var bs := [b0, b1, b2] + rest;
    assert bs[3..] == rest;
    var xs := [S0(b0), S1(b0, b1), S2(b1, b2), S3(b2)];
    assert Encode(bs) == Symbols(xs) + Encode(rest);
    ReadSextetsOfSymbols(xs, Encode(rest));
    var ys := ReadSextets(Encode(rest));
    DecodeValuesGroup(xs, ys);
    GroupRoundTrip(b0, b1, b2);
  }

  lemma DecodeValuesGroup(xs: seq<sextet>, ys: seq<sextet>)
    requires |xs| == 4
    ensures DecodeValues(xs + ys) == [D0(xs[0], xs[1]), D1(xs[1], xs[2]), D2(xs[2], xs[3])] + DecodeValues(ys)
  {
    assert (xs + ys)[4..] == ys;
  }

  // ---------------------------------------------------------------------
  // Three nibbles as two sextets

  function T0(n0: nibble, n1: nibble): sextet { n0 * 4 + n1 / 4 }
  function T1(n1: nibble, n2: nibble): sextet { n1 % 4 * 16 + n2 }

  function U0(x: sextet): nibble { x / 4 }
  function U1(x: sextet, y: sextet): nibble { x % 4 * 4 + y / 16 }
  function U2(y: sextet): nibble { y % 16 }

  /** Three nibbles (twelve bits) as two sextets, for a run of whole triples. */
  function Triples(ns: seq<nibble>): (xs: seq<sextet>)
    ensures 3 * |xs| <= 2 * |ns| < 3 * |xs| + 6
  {
    if |ns| < 3 then [] else [T0(ns[0], ns[1]), T1(ns[1], ns[2])] + Triples(ns[3..])
  }

  /** Two sextets as three nibbles, for a run of whole pairs. */
  function Untriple(xs: seq<sextet>): (ns: seq<nibble>)
    ensures 2 * |ns| <= 3 * |xs| < 2 * |ns| + 6
  {
    if |xs| < 2 then [] else [U0(xs[0]), U1(xs[0], xs[1]), U2(xs[1])] + Untriple(xs[2..])
  }

  lemma {:induction false} UntripleLength(xs: seq<sextet>)
    requires |xs| % 2 == 0
    ensures 2 * |Untriple(xs)| == 3 * |xs|
    decreases |xs|
  {
    if |xs| >= 2 {
      UntripleLength(xs[2..]);
    }
  }

  lemma {:induction false} TriplesLength(ns: seq<nibble>)
    requires |ns| % 3 == 0
    ensures 3 * |Triples(ns)| == 2 * |ns|
    decreases |ns|
  {
    if |ns| >= 3 {
      TriplesLength(ns[3..]);
    }
  }

  lemma TripleRoundTrip(n0: nibble, n1: nibble, n2: nibble)
    ensures U0(T0(n0, n1)) == n0 && U1(T0(n0, n1), T1(n1, n2)) == n1 && U2(T1(n1, n2)) == n2
  {
    assert n1 == 4 * (n1 / 4) + n1 % 4;
  }

  lemma UntripleRoundTrip(x: sextet, y: sextet)
    ensures T0(U0(x), U1(x, y)) == x && T1(U1(x, y), U2(y)) == y
  {
    assert x == 4 * (x / 4) + x % 4;
    assert y == 16 * (y / 16) + y % 16;
  }

  /** Reading triples back as nibbles gives the nibbles. */
  lemma {:induction false} UntripleTriples(ns: seq<nibble>)
    requires |ns| % 3 == 0
    ensures Untriple(Triples(ns)) == ns
    decreases |ns|
  {
    if ns != [] {
      UntripleTriples(ns[3..]);
      var t := Triples(ns);
      assert t[2..] == Triples(ns[3..]);
      TripleRoundTrip(ns[0], ns[1], ns[2]);
      assert ns == [ns[0], ns[1], ns[2]] + ns[3..];
    }
  }

  /** Grouping nibbles back into sextets gives the sextets. */
  lemma {:induction false} TriplesUntriple(xs: seq<sextet>)
    requires |xs| % 2 == 0
    ensures Triples(Untriple(xs)) == xs
    decreases |xs|
  {
    if xs != [] {
      TriplesUntriple(xs[2..]);
      var u := Untriple(xs);
      assert u[3..] == Untriple(xs[2..]);
      UntripleRoundTrip(xs[0], xs[1]);
      assert xs == [xs[0], xs[1]] + xs[2..];
    }
  }

  lemma {:induction false} TriplesAppend(a: seq<nibble>, b: seq<nibble>)
    requires |a| % 3 == 0 && |b| % 3 == 0
    ensures Triples(a + b) == Triples(a) + Triples(b)
    decreases |a|
  {
    if a != [] {
      var ab := a + b;
      assert ab[0] == a[0] && ab[1] == a[1] && ab[2] == a[2];
      assert ab[3..] == a[3..] + b;
      TriplesAppend(a[3..], b);
    } else {
      assert a + b == b;
    }
  }

  /** Six nibbles packed into three bytes: their four symbols are those of the two triples. */
  lemma SixNibbles(n0: nibble, n1: nibble, n2: nibble, n3: nibble, n4: nibble, n5: nibble)
    ensures S0(PairByte(n0, n1)) == T0(n0, n1)
    ensures S1(PairByte(n0, n1), PairByte(n2, n3)) == T1(n1, n2)
    ensures S2(PairByte(n2, n3), PairByte(n4, n5)) == T0(n3, n4)
    ensures S3(PairByte(n4, n5)) == T1(n4, n5)
  {
    FirstSextet(n0, n1);
    SecondSextet(n0, n1, n2, n3);
    FirstSextet(n3, n4);
    assert S2(PairByte(n2, n3), PairByte(n4, n5)) == n3 * 4 + n4 / 4;
    assert PairByte(n4, n5) == 64 * (n4 / 4) + (n4 % 4 * 16 + n5);
  }

  lemma FirstSextet(n0: nibble, n1: nibble)
    ensures S0(PairByte(n0, n1)) == T0(n0, n1)
    ensures PairByte(n0, n1) / 64 == n0 / 4
  {
    assert PairByte(n0, n1) == 4 * (n0 * 4 + n1 / 4) + n1 % 4;
    assert PairByte(n0, n1) == 64 * (n0 / 4) + (n0 % 4 * 16 + n1);
  }

  lemma SecondSextet(n0: nibble, n1: nibble, n2: nibble, n3: nibble)
    ensures S1(PairByte(n0, n1), PairByte(n2, n3)) == T1(n1, n2)
  {
    assert PairByte(n0, n1) == 4 * (n0 * 4 + n1 / 4) + n1 % 4;
    PairByteSplit(n2, n3);
  }

  /** Encoding packed nibbles, six at a time, yields the symbols of their triples. */
  lemma {:induction false} EncodePack(ns: seq<nibble>)
    requires |ns| % 6 == 0
    ensures Encode(Pack(ns)) == Symbols(Triples(ns))
    decreases |ns|
  {
    if ns != [] {
      EncodePack(ns[6..]);
      PackSix(ns);
      TriplesSix(ns);
      SymbolsAppend(SixTriples(ns), Triples(ns[6..]));
    }
  }

  /** The four sextets of the first six nibbles. */
  function SixTriples(ns: seq<nibble>): (xs: seq<sextet>)
    requires |ns| >= 6
    ensures |xs| == 4
  {
    [T0(ns[0], ns[1]), T1(ns[1], ns[2]), T0(ns[3], ns[4]), T1(ns[4], ns[5])]
  }

  lemma PackSix(ns: seq<nibble>)
    requires |ns| >= 6
    ensures Encode(Pack(ns)) == Symbols(SixTriples(ns)) + Encode(Pack(ns[6..]))
  {
    var p := Pack(ns);
    var a, b, c := PairByte(ns[0], ns[1]), PairByte(ns[2], ns[3]), PairByte(ns[4], ns[5]);
    PackPrefix(ns);
    EncodeCons(a, b, c, Pack(ns[6..]));
    GroupOfSix(ns[0], ns[1], ns[2], ns[3], ns[4], ns[5]);
  }

  lemma PackPrefix(ns: seq<nibble>)
    requires |ns| >= 6
    ensures Pack(ns) == [PairByte(ns[0], ns[1]), PairByte(ns[2], ns[3]), PairByte(ns[4], ns[5])] + Pack(ns[6..])
  {
    var n2 := ns[2..];
    var n4 := n2[2..];
    assert n4[2..] == ns[6..];
    var a := Pack(ns[6..]);
    var b := [PairByte(ns[4], ns[5])] + a;
    var c := [PairByte(ns[2], ns[3])] + b;
    assert Pack(n4) == b;
    assert Pack(n2) == c;
    assert Pack(ns) == [PairByte(ns[0], ns[1])] + c;
  }

  lemma PackCons(ns: seq<nibble>)
    requires |ns| >= 2
    ensures Pack(ns) == [PairByte(ns[0], ns[1])] + Pack(ns[2..])
  {
  }

  lemma EncodeCons(a: byte, b: byte, c: byte, rest: seq<byte>)
    ensures Encode([a, b, c] + rest) == EncodeGroup(a, b, c) + Encode(rest)
  {
    assert ([a, b, c] + rest)[3..] == rest;
  }

  lemma GroupOfSix(n0: nibble, n1: nibble, n2: nibble, n3: nibble, n4: nibble, n5: nibble)
    ensures EncodeGroup(PairByte(n0, n1), PairByte(n2, n3), PairByte(n4, n5))
         == Symbols([T0(n0, n1), T1(n1, n2), T0(n3, n4), T1(n4, n5)])
  {
    SixNibbles(n0, n1, n2, n3, n4, n5);
  }

  lemma TriplesSix(ns: seq<nibble>)
    requires |ns| >= 6
    ensures Triples(ns) == SixTriples(ns) + Triples(ns[6..])
  {
    assert ns[3..][3..] == ns[6..];
    assert ns[3..][0] == ns[3] && ns[3..][1] == ns[4] && ns[3..][2] == ns[5];
  }

  /**
   * Encoding `6k + 4` packed nibbles and dropping the last two characters
   * leaves the symbols of the first `6k + 3` nibbles.
   */
  lemma {:induction false} EncodePackDropTwo(ns: seq<nibble>)
    requires |ns| % 6 == 4
    ensures |Encode(Pack(ns))| >= 2
    ensures Encode(Pack(ns))[..|Encode(Pack(ns))| - 2] == Symbols(Triples(ns[..|ns| - 1]))
    decreases |ns|
  {
    if |ns| == 4 {
      EncodePackFour(ns);
    } else {
      EncodePackDropTwo(ns[6..]);
      DropTwoStep(ns);
    }
  }

  lemma DropTwoStep(ns: seq<nibble>)
    requires |ns| >= 10
    requires |Encode(Pack(ns[6..]))| >= 2
    requires Encode(Pack(ns[6..]))[..|Encode(Pack(ns[6..]))| - 2] == Symbols(Triples(ns[6..][..|ns[6..]| - 1]))
    ensures |Encode(Pack(ns))| >= 2
    ensures Encode(Pack(ns))[..|Encode(Pack(ns))| - 2] == Symbols(Triples(ns[..|ns| - 1]))
  {
    PackSix(ns);
    var m := ns[..|ns| - 1];
    assert m[6..] == ns[6..][..|ns[6..]| - 1];
    TriplesSix(m);
    assert SixTriples(m) == SixTriples(ns);
    SymbolsAppend(SixTriples(ns), Triples(m[6..]));
    DropTwoAppend(Symbols(SixTriples(ns)), Encode(Pack(ns[6..])));
  }

  lemma DropTwoAppend(a: string, r: string)
    requires |r| >= 2
    ensures (a + r)[..|a + r| - 2] == a + r[..|r| - 2]
  {
  }

  lemma EncodePackFour(ns: seq<nibble>)
    requires |ns| == 4
    ensures |Encode(Pack(ns))| == 4
    ensures Encode(Pack(ns))[..2] == Symbols(Triples(ns[..3]))
  {
    PackCons(ns);
    PackCons(ns[2..]);
    assert ns[2..][2..] == [];
    var p := Pack(ns);
    assert p == [PairByte(ns[0], ns[1]), PairByte(ns[2], ns[3])];
    FirstSextet(ns[0], ns[1]);
    SecondSextet(ns[0], ns[1], ns[2], ns[3]);
    var t := ns[..3];
    assert t[3..] == [];
    assert Triples(t) == [T0(ns[0], ns[1]), T1(ns[1], ns[2])];
  }
}
