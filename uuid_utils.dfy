/**
 * The identifier codec of the reconstruction tool. Cocos Creator stores an
 * asset identifier either in the canonical 36-character form
 * (`xxxxxxxx-xxxx-xxxx-xxxx-xxxxxxxxxxxx`, lower-case hex) or compressed to
 * 22 characters: the first two hex digits kept as they are, then the other
 * thirty digits written three at a time as two base64 symbols.
 *
 * `decodeUuid` expands the 22-character form into a shared 36-slot template;
 * `decompress_uuid` compresses a canonical identifier to 22 characters,
 * `compress_uuid` to 23 (five digits kept), and `original_uuid` turns the
 * 23-character form into the 22-character one.
 */
module UuidUtils {
  import opened Hex
  import opened Base64
  import opened JsValue

  // ---------------------------------------------------------------------
  // Lookup tables

  /**
   * `BASE64_VALUES[c.charCodeAt(0)]` as the bit operations see it: the
   * table has 123 entries, 64 by default and the alphabet position for the
   * 64 symbols; past its end the read is `undefined`, which the shift and
   * mask operators treat as 0.
   */
  function LookupValue(c: char): (v: int)
    ensures 0 <= v <= 64
    ensures IsSymbol(c) ==> v == SymbolValue(c)
    ensures !IsSymbol(c) && c as int < 123 ==> v == 64
  {
    if c as int >= 123 then 0 else if IsSymbol(c) then SymbolValue(c) else 64
  }

  /** Bitwise `x | y` on non-negative integers. */
  function BitOr(x: nat, y: nat): nat
  {
    if x == 0 then y
    else if y == 0 then x
    else 2 * BitOr(x / 2, y / 2) + (if x % 2 == 1 || y % 2 == 1 then 1 else 0)
  }

  /** `|` of two values below 16 stays below 16. */
  lemma {:induction false} BitOrBelow16(x: nat, y: nat)
    requires x < 16 && y < 16
    ensures BitOr(x, y) < 16
  {
    if x != 0 && y != 0 {
      BitOrBelow8(x / 2, y / 2);
    }
  }

  lemma {:induction false} BitOrBelow8(x: nat, y: nat)
    requires x < 8 && y < 8
    ensures BitOr(x, y) < 8
  {
    if x != 0 && y != 0 {
      BitOrBelow4(x / 2, y / 2);
    }
  }

  lemma BitOrBelow4(x: nat, y: nat)
    requires x < 4 && y < 4
    ensures BitOr(x, y) < 4
  {
  }

  /** With no bit in common, `|` is `+`: `4a | b` for `b < 4`. */
  lemma BitOrDisjoint(a: nat, b: nat)
    requires b < 4
    ensures BitOr(4 * a, b) == 4 * a + b
  {
    if a != 0 && b != 0 {
      assert BitOr(4 * a, b) == 2 * BitOr(2 * a, b / 2) + b % 2;
      if b / 2 != 0 {
        assert BitOr(2 * a, b / 2) == 2 * BitOr(a, 0) + 1;
      }
    }
  }

  /** The shifted bits of `rhs = 64` (`=` or a stray character) overlap those of `lhs`. */
  lemma BitOrOverlap()
    ensures BitOr(4, 4) == 4 && 4 + 4 != 4
  {
  }

  /**
   * `HexChars[n]` as `join` writes it: the lower-case digit, or the empty
   * text for the index 16 the table does not have.
   */
  function HexSlot(n: int): (t: string)
    requires 0 <= n <= 16
    ensures n < 16 ==> t == [HexDigit(n)]
    ensures n == 16 ==> t == ""
  {
    if n < 16 then [HexDigit(n)] else ""
  }

  /** The three template slots written for one pair of characters. */
  function PairSlots(lhs: int, rhs: int): (slots: seq<string>)
    requires 0 <= lhs <= 64 && 0 <= rhs <= 64
    ensures |slots| == 3
  {
    [HexSlot(lhs / 4), HexSlot(MiddleNibble(lhs, rhs)), HexSlot(rhs % 16)]
  }

  /** `((lhs & 3) << 2) | (rhs >> 4)`. */
  function MiddleNibble(lhs: int, rhs: int): (n: int)
    requires 0 <= lhs <= 64 && 0 <= rhs <= 64
    ensures 0 <= n < 16
  {
    BitOrBelow16(lhs % 4 * 4, rhs / 16);
    BitOr(lhs % 4 * 4, rhs / 16)
  }

  /** Two symbols give the three digits of their twelve bits. */
  lemma PairSlotsOfSymbols(x: sextet, y: sextet)
    ensures PairSlots(x, y) == [[HexDigit(U0(x))], [HexDigit(U1(x, y))], [HexDigit(U2(y))]]
  {
    BitOrDisjoint(x % 4, y / 16);
    assert MiddleNibble(x, y) == U1(x, y);
  }

  // ---------------------------------------------------------------------
  // The template

  /** The four hyphen slots of the 36-slot template. */
  predicate IsHyphenSlot(i: int)
  {
    i == 8 || i == 13 || i == 18 || i == 23
  }

  /** `Indices[j]`: the position of the `j`-th non-hyphen slot. */
  function SlotIndex(j: int): (i: int)
    requires 0 <= j < 32
    ensures 0 <= i < 36 && !IsHyphenSlot(i) && Rank(i) == j
  {
    if j < 8 then j else if j < 12 then j + 1 else if j < 16 then j + 2 else if j < 20 then j + 3 else j + 4
  }

  /** The number of non-hyphen slots before a non-hyphen slot. */
  function Rank(i: int): (j: int)
    requires 0 <= i < 36 && !IsHyphenSlot(i)
    ensures 0 <= j < 32
  {
    if i < 8 then i else if i < 13 then i - 1 else if i < 18 then i - 2 else if i < 23 then i - 3 else i - 4
  }

  /** `Indices` lists the non-hyphen slots in increasing order. */
  lemma IndicesEnumerate()
    ensures forall j, k :: 0 <= j < k < 32 ==> SlotIndex(j) < SlotIndex(k)
    ensures forall i :: 0 <= i < 36 && !IsHyphenSlot(i) ==> SlotIndex(Rank(i)) == i
  {
  }

  /** The text of slot `Indices[k]` after decoding `s` (`|s| == 22`). */
  function DecodedSlot(s: string, k: int): string
    requires |s| == 22 && 0 <= k < 32
  {
    if k < 2 then [s[k]]
    else
      var p := (k - 2) / 3;
      PairSlots(LookupValue(s[2 + 2 * p]), LookupValue(s[3 + 2 * p]))[(k - 2) % 3]
  }

  /** Pair `p` of the twenty encoded characters fills slots `Indices[2 + 3p ..]`. */
  lemma DecodedSlotOfPair(s: string, p: int, q: int)
    requires |s| == 22 && 0 <= p < 10 && 0 <= q < 3
    ensures DecodedSlot(s, 2 + 3 * p + q) == PairSlots(LookupValue(s[2 + 2 * p]), LookupValue(s[3 + 2 * p]))[q]
  {
    assert (3 * p + q) / 3 == p && (3 * p + q) % 3 == q;
  }

  /** The whole template after decoding `s`. */
  function TemplateOf(s: string): (t: seq<string>)
    requires |s| == 22
    ensures |t| == 36
  {
    seq(36, i requires 0 <= i < 36 => if IsHyphenSlot(i) then "-" else DecodedSlot(s, Rank(i)))
  }

  /** `slots.join('')`. */
  function Concat(slots: seq<string>): string
  {
    if slots == [] then "" else slots[0] + Concat(slots[1..])
  }

  /**
   * `decodeUuid(s)` on a string: the template text for 22 characters, any
   * other length unchanged.
   */
  function Decoded(s: string): string
  {
    if |s| != 22 then s else Concat(TemplateOf(s))
  }

  /** `decodeUuid(v)`: `undefined` for anything but a string. */
  function DecodeValue(v: Json): Json
  {
    if v.Str? then Str(Decoded(v.s)) else Undefined
  }

  /**
   * The module-level state of `decodeUuid`: the template it fills and
   * joins. Every call writes slots 0 and 1 and all thirty `Indices[2..]`
   * slots, so nothing of an earlier call shows in a later result.
   */
  class UuidDecoder {
    var template: array<string>

    predicate Valid()
      reads this, template
    {
      template.Length == 36 && forall i :: 0 <= i < 36 && IsHyphenSlot(i) ==> template[i] == "-"
    }

    /** The template as first built: empty slots and the four hyphens. */
    constructor()
      ensures Valid() && fresh(template)
      ensures forall i :: 0 <= i < 36 && !IsHyphenSlot(i) ==> template[i] == ""
    {
      template := new string[36](i => if IsHyphenSlot(i) then "-" else "");
    }

    method DecodeUuid(arg: Json) returns (r: Json)
      requires Valid()
      modifies template
      ensures Valid()
      ensures r == DecodeValue(arg)
    {
      if !arg.Str? {
        return Undefined;
      }
      var s := arg.s;
      if |s| != 22 {
        return arg;
      }
      template[0] := [s[0]];
      template[1] := [s[1]];
      var i, j := 2, 2;
      var p := 0;
      while i < 22
        invariant 0 <= p <= 10 && i == 2 + 2 * p && j == 2 + 3 * p
        invariant Valid()
        invariant template[0] == [s[0]] && template[1] == [s[1]]
        invariant forall q :: 0 <= q < p ==> PairWritten(template[..], s, q)
      {
        ghost var before := template[..];
        WritePair(s, i, j, p);
        PairsKept(before, template[..], s, p);
        i, j, p := i + 2, j + 3, p + 1;
      }
      TemplateFilled(template[..], s);
      r := Str(Concat(template[..]));
    }

    /** One round of the loop: the two characters of pair `p` fill its three slots. */
    method WritePair(s: string, i: int, j: int, p: int)
      requires Valid() && |s| == 22 && 0 <= p < 10 && i == 2 + 2 * p && j == 2 + 3 * p
      modifies template
      ensures Valid()
      ensures PairWritten(template[..], s, p)
      ensures forall k :: (0 <= k < 36 && k != SlotIndex(j) && k != SlotIndex(j + 1)
                && k != SlotIndex(j + 2)) ==> template[k] == old(template[k])
    {
      var slots := PairSlots(LookupValue(s[i]), LookupValue(s[i + 1]));
      template[SlotIndex(j)] := slots[0];
      template[SlotIndex(j + 1)] := slots[1];
      template[SlotIndex(j + 2)] := slots[2];
    }
  }

  /** The three slots of pair `q` hold the texts that pair decodes to. */
  predicate PairWritten(t: seq<string>, s: string, q: int)
    requires |t| == 36 && |s| == 22 && 0 <= q < 10
  {
    var slots := PairSlots(LookupValue(s[2 + 2 * q]), LookupValue(s[3 + 2 * q]));
    t[SlotIndex(2 + 3 * q)] == slots[0] && t[SlotIndex(3 + 3 * q)] == slots[1] && t[SlotIndex(4 + 3 * q)] == slots[2]
  }

  /** Writing the slots of pair `p` keeps what the earlier pairs wrote. */
  lemma PairsKept(before: seq<string>, after: seq<string>, s: string, p: int)
    requires |before| == 36 && |after| == 36 && |s| == 22 && 0 <= p < 10
    requires forall q :: 0 <= q < p ==> PairWritten(before, s, q)
    requires forall i :: (0 <= i < 36 && i != SlotIndex(2 + 3 * p) && i != SlotIndex(3 + 3 * p)
               && i != SlotIndex(4 + 3 * p)) ==> after[i] == before[i]
    requires PairWritten(after, s, p)
    ensures forall q :: 0 <= q <= p ==> PairWritten(after, s, q)
  {
    forall q | 0 <= q < p ensures PairWritten(after, s, q) {
      assert PairWritten(before, s, q);
    }
  }

  /** Once all ten pairs are written, the template is the decoded one. */
  lemma TemplateFilled(t: seq<string>, s: string)
    requires |t| == 36 && |s| == 22
    requires forall i :: 0 <= i < 36 && IsHyphenSlot(i) ==> t[i] == "-"
    requires t[0] == [s[0]] && t[1] == [s[1]]
    requires forall q :: 0 <= q < 10 ==> PairWritten(t, s, q)
    ensures t == TemplateOf(s)
  {
    forall i | 0 <= i < 36 ensures t[i] == TemplateOf(s)[i] {
      if !IsHyphenSlot(i) && Rank(i) >= 2 {
        SlotOfPair(t, s, i, (Rank(i) - 2) / 3);
      }
    }
  }

  lemma SlotOfPair(t: seq<string>, s: string, i: int, q: int)
    requires |t| == 36 && |s| == 22 && 0 <= i < 36 && !IsHyphenSlot(i) && Rank(i) >= 2
    requires q == (Rank(i) - 2) / 3 && 0 <= q < 10
    requires PairWritten(t, s, q)
    ensures t[i] == DecodedSlot(s, Rank(i))
  {
    var r := Rank(i);
    var m := r - 2 - 3 * q;
    assert 0 <= m < 3;
    DecodedSlotOfPair(s, q, m);
    var slots := PairSlots(LookupValue(s[2 + 2 * q]), LookupValue(s[3 + 2 * q]));
    assert t[SlotIndex(r)] == slots[m] by {
      if m == 0 {
        assert r == 2 + 3 * q;
      } else if m == 1 {
        assert r == 3 + 3 * q;
      } else {
        assert r == 4 + 3 * q;
      }
    }
    assert SlotIndex(r) == i;
  }

  // ---------------------------------------------------------------------
  // What decoding produces

  /** The 36-character text with the 32 characters of `t` around the four hyphens. */
  function Hyphenate(t: string): (u: string)
    requires |t| == 32
    ensures |u| == 36
  {
    seq(36, i requires 0 <= i < 36 => if IsHyphenSlot(i) then '-' else t[Rank(i)])
  }

  lemma {:induction false} ConcatSingles(slots: seq<string>, cs: string)
    requires |slots| == |cs|
    requires forall i :: 0 <= i < |slots| ==> slots[i] == [cs[i]]
    ensures Concat(slots) == cs
    decreases |slots|
  {
    if slots != [] {
      ConcatSingles(slots[1..], cs[1..]);
    }
  }

  /** Position `3p + q` of the nibbles of a run of sextet pairs. */
  lemma {:induction false} UntripleAt(xs: seq<sextet>, p: nat)
    requires 2 * p + 1 < |xs|
    ensures 3 * p + 2 < |Untriple(xs)|
    ensures Untriple(xs)[3 * p] == U0(xs[2 * p])
    ensures Untriple(xs)[3 * p + 1] == U1(xs[2 * p], xs[2 * p + 1])
    ensures Untriple(xs)[3 * p + 2] == U2(xs[2 * p + 1])
    decreases p
  {
    if p > 0 {
      UntripleAt(xs[2..], p - 1);
      assert Untriple(xs)[3..] == Untriple(xs[2..]);
    }
  }

  /**
   * A 22-character text whose last twenty characters are base64 symbols
   * decodes to its first two characters and the thirty hex digits of the
   * symbols' bits, with hyphens at positions 8, 13, 18 and 23.
   */
  lemma DecodedOfSymbols(s: string)
    requires |s| == 22 && AllSymbols(s[2..])
    ensures |Untriple(Values(s[2..]))| == 30
    ensures Decoded(s) == Hyphenate(s[..2] + Digits(Untriple(Values(s[2..]))))
  {
    var xs := Values(s[2..]);
    UntripleLength(xs);
    var t := s[..2] + Digits(Untriple(xs));
    forall k | 2 <= k < 32 ensures DecodedSlot(s, k) == [t[k]] {
      SymbolSlot(s, xs, k);
      assert t[k] == Digits(Untriple(xs))[k - 2];
    }
    var h := Hyphenate(t);
    forall i | 0 <= i < 36 ensures TemplateOf(s)[i] == [h[i]] {
    }
    ConcatSingles(TemplateOf(s), h);
  }

  /** Slot `k` holds the digit of nibble `k - 2` of the symbols' bits. */
  lemma SymbolSlot(s: string, xs: seq<sextet>, k: int)
    requires |s| == 22 && AllSymbols(s[2..]) && xs == Values(s[2..])
    requires 2 <= k < 32
    ensures k - 2 < |Untriple(xs)|
    ensures DecodedSlot(s, k) == [HexDigit(Untriple(xs)[k - 2])]
  {
    var p := (k - 2) / 3;
    DecodedNibbles(s, xs, p);
    if (k - 2) % 3 == 0 {
      assert k == 2 + 3 * p;
    } else if (k - 2) % 3 == 1 {
      assert k == 3 + 3 * p;
    } else {
      assert k == 4 + 3 * p;
    }
  }

  /** Slots `2 + 3p`, `3 + 3p` and `4 + 3p` hold the digits of nibbles `3p .. 3p + 2` of the symbols' bits. */
  lemma DecodedNibbles(s: string, xs: seq<sextet>, p: nat)
    requires |s| == 22 && AllSymbols(s[2..]) && xs == Values(s[2..])
    requires p < 10
    ensures 3 * p + 2 < |Untriple(xs)|
    ensures DecodedSlot(s, 2 + 3 * p) == [HexDigit(Untriple(xs)[3 * p])]
    ensures DecodedSlot(s, 3 + 3 * p) == [HexDigit(Untriple(xs)[3 * p + 1])]
    ensures DecodedSlot(s, 4 + 3 * p) == [HexDigit(Untriple(xs)[3 * p + 2])]
  {
    var a, b := s[2 + 2 * p], s[3 + 2 * p];
    assert a == s[2..][2 * p] && b == s[2..][2 * p + 1];
    assert xs[2 * p] == LookupValue(a) && xs[2 * p + 1] == LookupValue(b);
    PairSlotsOfSymbols(xs[2 * p], xs[2 * p + 1]);
    DecodedSlotOfPair(s, p, 0);
    DecodedSlotOfPair(s, p, 1);
    DecodedSlotOfPair(s, p, 2);
    UntripleAt(xs, p);
  }

  /** Concatenated slots are as long as their lengths add up to. */
  function TotalLength(slots: seq<string>): nat
  {
    if slots == [] then 0 else |slots[0]| + TotalLength(slots[1..])
  }

  lemma {:induction false} ConcatLength(slots: seq<string>)
    ensures |Concat(slots)| == TotalLength(slots)
    decreases |slots|
  {
    if slots != [] {
      ConcatLength(slots[1..]);
    }
  }

  /** A slot that always holds one character: the kept two, the hyphens, and the last two of each pair. */
  predicate AlwaysFilled(i: int)
    requires 0 <= i < 36
  {
    i < 2 || IsHyphenSlot(i) || (Rank(i) >= 2 && (Rank(i) - 2) % 3 != 0)
  }

  /** The number of always-filled slots from `i` on. */
  function FilledFrom(i: int): nat
    requires 0 <= i <= 36
    decreases 36 - i
  {
    if i == 36 then 0 else (if AlwaysFilled(i) then 1 else 0) + FilledFrom(i + 1)
  }

  lemma {:induction false} SuffixLength(t: seq<string>, i: int)
    requires |t| == 36 && 0 <= i <= 36
    requires forall j :: 0 <= j < 36 && AlwaysFilled(j) ==> |t[j]| >= 1
    requires forall j :: 0 <= j < 36 ==> |t[j]| <= 1
    ensures FilledFrom(i) <= TotalLength(t[i..]) <= 36 - i
    decreases 36 - i
  {
    if i < 36 {
      SuffixLength(t, i + 1);
      assert t[i..][1..] == t[i + 1..];
    }
  }

  /**
   * Whatever the 22 characters, the decoded text has between 26 and 36
   * characters: only the first slot of a pair can be empty.
   */
  lemma DecodedLength(s: string)
    requires |s| == 22
    ensures 26 <= |Decoded(s)| <= 36
  {
    var t := TemplateOf(s);
    SlotSizes(s);
    ConcatLength(t);
    SuffixLength(t, 0);
    assert t[0..] == t;
    FilledCount();
  }

  lemma SlotSizes(s: string)
    requires |s| == 22
    ensures forall j :: 0 <= j < 36 ==> |TemplateOf(s)[j]| <= 1
    ensures forall j :: 0 <= j < 36 && AlwaysFilled(j) ==> |TemplateOf(s)[j]| >= 1
  {
    forall j | 0 <= j < 36 ensures |TemplateOf(s)[j]| <= 1 && (AlwaysFilled(j) ==> |TemplateOf(s)[j]| >= 1) {
      SlotSize(s, j);
    }
  }

  lemma SlotSize(s: string, j: int)
    requires |s| == 22 && 0 <= j < 36
    ensures |TemplateOf(s)[j]| <= 1 && (AlwaysFilled(j) ==> |TemplateOf(s)[j]| >= 1)
  {
    if !IsHyphenSlot(j) {
      DecodedSlotSize(s, Rank(j));
    }
  }

  /** A decoded slot holds at most one character, and exactly one unless it is the first of a pair. */
  lemma DecodedSlotSize(s: string, k: int)
    requires |s| == 22 && 0 <= k < 32
    ensures |DecodedSlot(s, k)| <= 1
    ensures k < 2 || (k - 2) % 3 != 0 ==> |DecodedSlot(s, k)| == 1
  {
    if k >= 2 {
      var p, q := (k - 2) / 3, (k - 2) % 3;
      assert k == 2 + 3 * p + q;
      DecodedSlotOfPair(s, p, q);
    }
  }

  lemma FilledCount()
    ensures FilledFrom(0) == 26
  {
    assert FilledFrom(30) == 4;
    assert FilledFrom(24) == 8;
    assert FilledFrom(18) == 13;
    assert FilledFrom(12) == 17;
    assert FilledFrom(6) == 22;
  }

  /** Decoding is idempotent: a decoded identifier is never 22 characters long. */
  lemma DecodedIdempotent(s: string)
    ensures Decoded(Decoded(s)) == Decoded(s)
  {
    if |s| == 22 {
      DecodedLength(s);
    }
  }

  // ---------------------------------------------------------------------
  // Compression

  /** `s.slice(0, n)`. */
  function Prefix(s: string, n: nat): (r: string)
    ensures |r| <= n && |r| <= |s| && r == s[..|r|]
    ensures |s| >= n ==> |r| == n
  {
    if |s| <= n then s else s[..n]
  }

  /** `s.slice(n)`. */
  function Suffix(s: string, n: nat): (r: string)
    ensures Prefix(s, n) + r == s
  {
    if |s| <= n then "" else s[n..]
  }

  /** `s.slice(0, s.length - 2)`: the text without its last two characters. */
  function DropLastTwo(s: string): (r: string)
    ensures |s| >= 2 ==> r + s[|s| - 2..] == s
    ensures |s| < 2 ==> r == ""
  {
    if |s| < 2 then "" else s[..|s| - 2]
  }

  /** `s.replace(/-/g, '')`. */
  function RemoveHyphens(s: string): (r: string)
    ensures '-' !in r && |r| <= |s|
  {
    if s == [] then "" else (if s[0] == '-' then "" else [s[0]]) + RemoveHyphens(s[1..])
  }

  /** A text without hyphens is left as it is. */
  lemma {:induction false} RemoveHyphensNone(s: string)
    requires '-' !in s
    ensures RemoveHyphens(s) == s
    decreases |s|
  {
    if s != [] {
      assert s[0] in s;
      assert '-' !in s[1..] by {
        forall c | c in s[1..] ensures c != '-' {
          var j :| 0 <= j < |s[1..]| && s[1..][j] == c;
          assert s[j + 1] == c;
        }
      }
      RemoveHyphensNone(s[1..]);
      assert [s[0]] + s[1..] == s;
    }
  }

  lemma {:induction false} RemoveHyphensAppend(a: string, b: string)
    ensures RemoveHyphens(a + b) == RemoveHyphens(a) + RemoveHyphens(b)
    decreases |a|
  {
    if a == [] {
      assert a + b == b;
    } else {
      var head := if a[0] == '-' then "" else [a[0]];
      assert (a + b)[0] == a[0];
      assert (a + b)[1..] == a[1..] + b;
      assert RemoveHyphens(a + b) == head + RemoveHyphens(a[1..] + b);
      RemoveHyphensAppend(a[1..], b);
      assert RemoveHyphens(a) == head + RemoveHyphens(a[1..]);
      assert head + (RemoveHyphens(a[1..]) + RemoveHyphens(b)) == (head + RemoveHyphens(a[1..])) + RemoveHyphens(b);
    }
  }

  /** Removing hyphens across the hyphen at `h`, with none before it from `lo`. */
  lemma RemoveHyphensSplit(u: string, lo: nat, h: nat, hi: nat)
    requires lo <= h < hi <= |u| && u[h] == '-'
    requires forall i :: lo <= i < h ==> u[i] != '-'
    ensures RemoveHyphens(u[lo..hi]) == u[lo..h] + RemoveHyphens(u[h + 1..hi])
  {
    assert u[lo..hi] == u[lo..h] + u[h..hi];
    RemoveHyphensAppend(u[lo..h], u[h..hi]);
    assert '-' !in u[lo..h] by {
      forall c | c in u[lo..h] ensures c != '-' {
        var j :| 0 <= j < h - lo && u[lo..h][j] == c;
        assert u[lo + j] == c;
      }
    }
    RemoveHyphensNone(u[lo..h]);
    assert u[h..hi][0] == '-';
    assert u[h..hi][1..] == u[h + 1..hi];
  }

  /** `compress_uuid(uuid)`: five characters kept, the rest as base64 less its last two characters. */
  function Compressed(uuid: string): string
  {
    Prefix(uuid, 5) + DropLastTwo(Encode(PairBytes(RemoveHyphens(Suffix(uuid, 5)) + "f")))
  }

  /** `decompress_uuid(uuid)`: two characters kept, the rest as base64. */
  function Decompressed(uuid: string): string
  {
    Prefix(uuid, 2) + Encode(PairBytes(RemoveHyphens(Suffix(uuid, 2)) + "f"))
  }

  method CompressUuid(uuid: string) returns (r: string)
    ensures r == Compressed(uuid)
  {
    var header := Prefix(uuid, 5);
    var content := RemoveHyphens(Suffix(uuid, 5)) + "f";
    var byteArray: seq<byte> := [];
    var i := 0;
    while i < |content| - 1
      invariant 0 <= i <= |content| && i % 2 == 0
      invariant byteArray == PairBytes(content[..i])
    {
      PairBytesSnoc(content, i);
      byteArray := byteArray + [ParseIntPair(content[i], content[i + 1])];
      i := i + 2;
    }
    PairBytesEnd(content, i);
    var base64Content := Encode(byteArray);
    r := header + DropLastTwo(base64Content);
  }

  method DecompressUuid(uuid: string) returns (r: string)
    ensures r == Decompressed(uuid)
  {
    var header := Prefix(uuid, 2);
    var content := RemoveHyphens(Suffix(uuid, 2)) + "f";
    var byteArray: seq<byte> := [];
    var i := 0;
    while i < |content| - 1
      invariant 0 <= i <= |content| && i % 2 == 0
      invariant byteArray == PairBytes(content[..i])
    {
      PairBytesSnoc(content, i);
      byteArray := byteArray + [ParseIntPair(content[i], content[i + 1])];
      i := i + 2;
    }
    PairBytesEnd(content, i);
    var base64Content := Encode(byteArray);
    r := header + base64Content;
  }

  /** The `=` padding `original_uuid` adds to a text of length `n`. */
  function Padding(n: nat): (pad: string)
    ensures (n + |pad|) % 3 == 0 && |pad| <= 2
    ensures forall i :: 0 <= i < |pad| ==> pad[i] == '='
  {
    if n % 3 == 1 then "==" else if n % 3 == 2 then "=" else ""
  }

  /**
   * `original_uuid(uuid)`: the 23-character form to the 22-character one.
   * The text after the first five characters is decoded into hex and
   * appended to them; of that text's compression only the first four
   * characters are kept, and the original tail follows them.
   */
  function OriginalUuid(uuid: string): string
  {
    var header := Prefix(uuid, 5);
    var end := Suffix(uuid, 5);
    var temp := end + Padding(|end|);
    var longUuid := header + ToHex(Decode(temp));
    Prefix(Decompressed(longUuid), 4) + end
  }

  // ---------------------------------------------------------------------
  // Canonical identifiers

  /** 36 characters with hyphens at positions 8, 13, 18 and 23. */
  predicate HyphensPlaced(u: string)
  {
    |u| == 36 && forall i :: 0 <= i < 36 && IsHyphenSlot(i) ==> u[i] == '-'
  }

  /**
   * Hyphens placed and lower-case hex at every other position from `k` on.
   * The first `k` characters are only ever copied, so the round trips below
   * hold whatever they are.
   */
  predicate IsUuidFrom(u: string, k: nat)
  {
    HyphensPlaced(u) && forall i :: k <= i < 36 && !IsHyphenSlot(i) ==> IsLowerHex(u[i])
  }

  /** A canonical identifier: lower-case hex around the four hyphens. */
  predicate IsUuid(u: string)
  {
    IsUuidFrom(u, 0)
  }

  /** The 32 characters between the hyphens. */
  function UuidDigits(u: string): (d: string)
    requires |u| == 36
    ensures |d| == 32
  {
    u[..8] + u[9..13] + u[14..18] + u[19..23] + u[24..]
  }

  lemma UuidDigitsAt(u: string)
    requires |u| == 36
    ensures forall i :: 0 <= i < 36 && !IsHyphenSlot(i) ==> UuidDigits(u)[Rank(i)] == u[i]
  {
  }

  /**
   * Hyphens at the four hyphen slots and nowhere else from position `k` on:
   * removing the hyphens from `u[k..]` leaves the digits from `k` on.
   */
  lemma RemoveHyphensOfUuid(u: string, k: nat)
    requires |u| == 36 && (k == 2 || k == 5)
    requires forall i :: 0 <= i < 36 && IsHyphenSlot(i) ==> u[i] == '-'
    requires forall i :: k <= i < 36 && !IsHyphenSlot(i) ==> u[i] != '-'
    ensures RemoveHyphens(u[k..]) == UuidDigits(u)[k..]
  {
    assert u[k..] == u[k..36];
    RemoveHyphensSplit(u, k, 8, 36);
    RemoveHyphensAfterFirst(u);
    var d := UuidDigits(u);
    assert d == u[..8] + (u[9..13] + u[14..18] + u[19..23] + u[24..]);
    assert d[k..] == u[k..8] + (u[9..13] + u[14..18] + u[19..23] + u[24..]);
  }

  /** The part of `RemoveHyphensOfUuid` after the first hyphen. */
  lemma RemoveHyphensAfterFirst(u: string)
    requires |u| == 36
    requires forall i :: 0 <= i < 36 && IsHyphenSlot(i) ==> u[i] == '-'
    requires forall i :: 9 <= i < 36 && !IsHyphenSlot(i) ==> u[i] != '-'
    ensures RemoveHyphens(u[9..36]) == u[9..13] + u[14..18] + u[19..23] + u[24..]
  {
    RemoveHyphensSplit(u, 9, 13, 36);
    RemoveHyphensSplit(u, 14, 18, 36);
    RemoveHyphensSplit(u, 19, 23, 36);
    assert '-' !in u[24..36] by {
      forall c | c in u[24..36] ensures c != '-' {
        var j :| 0 <= j < 12 && u[24..36][j] == c;
        assert u[24 + j] == c;
      }
    }
    RemoveHyphensNone(u[24..36]);
    assert u[24..36] == u[24..];
  }

  /** Placing the digits of a canonical identifier around the hyphens gives it back. */
  lemma HyphenateUuidDigits(u: string)
    requires HyphensPlaced(u)
    ensures Hyphenate(UuidDigits(u)) == u
  {
    UuidDigitsAt(u);
  }

  /** The digits of a hyphenated text are the text placed. */
  lemma UuidDigitsOfHyphenate(t: string)
    requires |t| == 32
    ensures UuidDigits(Hyphenate(t)) == t
  {
    var h := Hyphenate(t);
    forall j | 0 <= j < 32 ensures UuidDigits(h)[j] == t[j] {
      assert h[SlotIndex(j)] == t[j];
      UuidDigitsAt(h);
    }
  }

  /** The digits of a canonical identifier from `k` on, as `RemoveHyphens` finds them. */
  lemma UuidContent(u: string, k: nat)
    requires IsUuidFrom(u, k) && (k == 2 || k == 5)
    ensures Suffix(u, k) == u[k..] && Prefix(u, k) == u[..k]
    ensures RemoveHyphens(Suffix(u, k)) == UuidDigits(u)[k..]
    ensures forall i :: 0 <= i < 32 - k ==> IsLowerHex(UuidDigits(u)[k..][i])
  {
    var d := UuidDigits(u)[k..];
    UuidDigitsAt(u);
    RemoveHyphensOfUuid(u, k);
    forall i | 0 <= i < |d| ensures IsLowerHex(d[i]) {
      assert d[i] == u[SlotIndex(i + k)];
    }
  }

  /** An identifier decompresses to its first two characters and the symbols of its other thirty digits. */
  lemma DecompressedOfUuid(u: string)
    requires IsUuidFrom(u, 2)
    ensures AllHex(UuidDigits(u)[2..])
    ensures Decompressed(u) == u[..2] + Symbols(Triples(Nibbles(UuidDigits(u)[2..])))
    ensures |Decompressed(u)| == 22
  {
    var d := UuidDigits(u)[2..];
    UuidContent(u, 2);
    DigitsOfNibbles(d);
    var ns := Nibbles(d);
    assert |ns| == 30;
    NibblesAppend(d, "f");
    assert Nibbles(d + "f") == ns + [15];
    PairBytesOfHex(d + "f");
    PackDropsOdd(ns, 15);
    assert PairBytes(RemoveHyphens(Suffix(u, 2)) + "f") == Pack(ns);
    EncodePack(ns);
    TriplesLength(ns);
  }

  /** An identifier compresses to its first five characters and the symbols of its other 27 digits. */
  lemma CompressedOfUuid(u: string)
    requires IsUuidFrom(u, 5)
    ensures AllHex(UuidDigits(u)[5..])
    ensures Compressed(u) == u[..5] + Symbols(Triples(Nibbles(UuidDigits(u)[5..])))
    ensures |Compressed(u)| == 23
  {
    var d := UuidDigits(u)[5..];
    UuidContent(u, 5);
    CompressedDigits(d);
  }

  /** The 27 digits after the first five, padded with `f`, packed, encoded and cut by two. */
  lemma CompressedDigits(d: string)
    requires |d| == 27 && forall i :: 0 <= i < 27 ==> IsLowerHex(d[i])
    ensures AllHex(d)
    ensures DropLastTwo(Encode(PairBytes(d + "f"))) == Symbols(Triples(Nibbles(d)))
    ensures |Symbols(Triples(Nibbles(d)))| == 18
  {
    PaddedPack(d);
    DropPadNibble(Nibbles(d));
  }

  /** Padding 27 lower-case digits with `f` packs their nibbles followed by 15. */
  lemma PaddedPack(d: string)
    requires |d| == 27 && forall i :: 0 <= i < 27 ==> IsLowerHex(d[i])
    ensures AllHex(d) && |Nibbles(d)| == 27
    ensures PairBytes(d + "f") == Pack(Nibbles(d) + [15])
  {
    DigitsOfNibbles(d);
    NibblesAppend(d, "f");
    assert Nibbles("f") == [15];
    PairBytesOfHex(d + "f");
  }

  /** Encoding 27 nibbles and a padding nibble, then cutting two symbols, leaves the 27 nibbles' symbols. */
  lemma DropPadNibble(nd: seq<nibble>)
    requires |nd| == 27
    ensures DropLastTwo(Encode(Pack(nd + [15]))) == Symbols(Triples(nd))
    ensures |Symbols(Triples(nd))| == 18
  {
    var ns := nd + [15];
    EncodePackDropTwo(ns);
    assert ns[..|ns| - 1] == nd;
    TriplesLength(nd);
  }

  // ---------------------------------------------------------------------
  // Round trips

  /** Decoding the decompressed form of an identifier gives the identifier back. */
  lemma DecodeDecompressed(u: string)
    requires IsUuidFrom(u, 2)
    ensures Decoded(Decompressed(u)) == u
  {
    var d := UuidDigits(u);
    DecodedDigits(u);
    assert u[..2] == d[..2];
    assert d[..2] + d[2..] == d;
    HyphenateUuidDigits(u);
  }

  /** The digits decoding finds in the decompressed form of an identifier. */
  lemma DecodedDigits(u: string)
    requires IsUuidFrom(u, 2)
    ensures Decoded(Decompressed(u)) == Hyphenate(u[..2] + UuidDigits(u)[2..])
  {
    DecompressedOfUuid(u);
    var d := UuidDigits(u);
    var ns := Nibbles(d[2..]);
    var xs := Triples(ns);
    var s := Decompressed(u);
    assert s[2..] == Symbols(xs) && s[..2] == u[..2];
    ValuesOfSymbols(xs);
    TriplesLength(ns);
    DecodedOfSymbols(s);
    UntripleTriples(ns);
    UuidContent(u, 2);
    DigitsOfNibbles(d[2..]);
  }

  /** Decompressing a decoded identifier gives back the 22-character form, whatever its first two characters. */
  lemma DecompressDecoded(s: string)
    requires |s| == 22 && AllSymbols(s[2..])
    ensures IsUuidFrom(Decoded(s), 2)
    ensures Decompressed(Decoded(s)) == s
  {
    DecodedOfSymbols(s);
    var xs := Values(s[2..]);
    var ns := Untriple(xs);
    var t := s[..2] + Digits(ns);
    var h := Hyphenate(t);
    assert IsUuidFrom(h, 2) by {
      forall i | 2 <= i < 36 && !IsHyphenSlot(i) ensures IsLowerHex(h[i]) {
        assert h[i] == Digits(ns)[Rank(i) - 2];
      }
    }
    DecompressedOfUuid(h);
    UuidDigitsOfHyphenate(t);
    assert UuidDigits(h)[2..] == Digits(ns);
    NibblesOfDigits(ns);
    TriplesUntriple(xs);
    SymbolsOfValues(s[2..]);
    assert h[..2] == s[..2];
    assert s[..2] + s[2..] == s;
  }

  /** The byte a two-digit pair parses to, when both are hex digits. */
  lemma FirstPairs(content: string)
    requires |content| >= 4 && AllHex(content[..4])
    ensures |PairBytes(content)| >= 2
    ensures PairBytes(content)[0] == PairByte(HexValue(content[0]), HexValue(content[1]))
    ensures PairBytes(content)[1] == PairByte(HexValue(content[2]), HexValue(content[3]))
  {
    assert content[..0] == [];
    PairBytesSnoc(content, 0);
    PairBytesSnoc(content, 2);
    assert content == content[..4] + content[4..];
    PairBytesAppend(content[..4], content[4..]);
  }

  /**
   * The first four characters `original_uuid` keeps: the two-character
   * header and the two symbols of the next three hex digits.
   */
  lemma OriginalHead(head: string, rest: string)
    requires |head| == 5 && IsHexDigit(head[2]) && IsHexDigit(head[3]) && IsHexDigit(head[4])
    requires AllHex(rest)
    ensures Prefix(Decompressed(head + rest), 4)
      == head[..2] + [Symbol(T0(HexValue(head[2]), HexValue(head[3]))), Symbol(T1(HexValue(head[3]), HexValue(head[4])))]
  {
    var v := head + rest;
    assert Prefix(v, 2) == head[..2];
    assert Suffix(v, 2) == head[2..] + rest;
    assert '-' !in head[2..] + rest by {
      forall c | c in head[2..] + rest ensures c != '-' {
        var j :| 0 <= j < |head[2..] + rest| && (head[2..] + rest)[j] == c;
        if j < 3 { assert c == head[2 + j]; } else { assert c == rest[j - 3]; }
      }
    }
    RemoveHyphensNone(head[2..] + rest);
    var content := head[2..] + rest + "f";
    assert content[0] == head[2] && content[1] == head[3] && content[2] == head[4];
    assert AllHex(content[..4]);
    FirstPairs(content);
    var bs := PairBytes(content);
    var n3 := HexValue(content[3]);
    EncodeFirstTwo(bs);
    EncodeLength(bs);
    FirstSextet(HexValue(head[2]), HexValue(head[3]));
    SecondSextet(HexValue(head[2]), HexValue(head[3]), HexValue(head[4]), n3);
    assert Decompressed(v) == head[..2] + Encode(bs);
  }

  /** `original_uuid` on a five-character header and eighteen symbols. */
  lemma OriginalOfSymbols(head: string, ys: seq<sextet>)
    requires |head| == 5 && IsHexDigit(head[2]) && IsHexDigit(head[3]) && IsHexDigit(head[4])
    requires |ys| == 18
    ensures OriginalUuid(head + Symbols(ys))
      == head[..2] + [Symbol(T0(HexValue(head[2]), HexValue(head[3]))), Symbol(T1(HexValue(head[3]), HexValue(head[4])))] + Symbols(ys)
  {
    var c := head + Symbols(ys);
    var end := Symbols(ys);
    assert Prefix(c, 5) == head && Suffix(c, 5) == end;
    assert Padding(|end|) == "";
    assert end + Padding(|end|) == end;
    var rest := ToHex(Decode(end));
    assert AllHex(rest);
    OriginalHead(head, rest);
  }

  /** The decompressed form of an identifier, split after its first three digits. */
  lemma DecompressedSplit(u: string)
    requires IsUuidFrom(u, 2)
    ensures IsHexDigit(u[2]) && IsHexDigit(u[3]) && IsHexDigit(u[4])
    ensures AllHex(UuidDigits(u)[5..])
    ensures Decompressed(u)
      == u[..2] + [Symbol(T0(HexValue(u[2]), HexValue(u[3]))), Symbol(T1(HexValue(u[3]), HexValue(u[4])))]
         + Symbols(Triples(Nibbles(UuidDigits(u)[5..])))
  {
    DecompressedOfUuid(u);
    var d := UuidDigits(u);
    assert IsLowerHex(u[2]) && IsLowerHex(u[3]) && IsLowerHex(u[4]);
    var a := u[2..5];
    assert d[2..] == a + d[5..];
    assert AllHex(d[5..]);
    SymbolsOfLeadingTriple(a, d[5..]);
  }

  /** The symbols of the hex text `a + b` whose first three digits `a` form one triple. */
  lemma SymbolsOfLeadingTriple(a: string, b: string)
    requires |a| == 3 && AllHex(a) && AllHex(b) && |b| % 3 == 0
    ensures AllHex(a + b)
    ensures Symbols(Triples(Nibbles(a + b)))
      == [Symbol(T0(HexValue(a[0]), HexValue(a[1]))), Symbol(T1(HexValue(a[1]), HexValue(a[2])))] + Symbols(Triples(Nibbles(b)))
  {
    NibblesAppend(a, b);
    var na := Nibbles(a);
    TriplesAppend(na, Nibbles(b));
    assert na[3..] == [];
    assert Triples(na) == [T0(na[0], na[1]), T1(na[1], na[2])];
    SymbolsAppend(Triples(na), Triples(Nibbles(b)));
  }

  /**
   * Restoring a compressed identifier gives its decompressed form: the
   * 23-character form of `compress_uuid` becomes the 22-character form of
   * `decompress_uuid` without ever going through the 36-character one.
   */
  lemma OriginalOfCompressed(u: string)
    requires IsUuidFrom(u, 2)
    ensures OriginalUuid(Compressed(u)) == Decompressed(u)
  {
    assert IsUuidFrom(u, 5);
    CompressedOfUuid(u);
    DecompressedSplit(u);
    var ys := Triples(Nibbles(UuidDigits(u)[5..]));
    assert |Symbols(ys)| == 18;
    OriginalOfSymbols(u[..5], ys);
    assert u[..5][..2] == u[..2];
  }



  /** The worked example of `decodeUuid`'s documentation. */
  lemma GoldenExample()
    ensures Decoded("fcmR3XADNLgJ1ByKhqcC5Z") == "fc991dd7-0033-4b80-9d41-c8a86a702e59"
  {
    GoldenSplit();
    GoldenChunks();
    DecodedOfChunks("fc", "mR3X", "ADNL", "gJ1B", "yKhq", "cC5Z");
    GoldenRegroup();
    HyphenateParts("fc991dd7", "0033", "4b80", "9d41", "c8a86a702e59");
    GoldenHyphens();
  }

  lemma GoldenSplit()
    ensures "fcmR3XADNLgJ1ByKhqcC5Z" == "fc" + ("mR3X" + "ADNL" + "gJ1B" + "yKhq" + "cC5Z")
  {
  }

  lemma GoldenHyphens()
    ensures "fc991dd7" + "-" + "0033" + "-" + "4b80" + "-" + "9d41" + "-" + "c8a86a702e59"
      == "fc991dd7-0033-4b80-9d41-c8a86a702e59"
  {
  }

  lemma GoldenRegroup()
    ensures "fc" + ("991dd7" + "00334b" + "809d41" + "c8a86a" + "702e59")
      == "fc991dd7" + "0033" + "4b80" + "9d41" + "c8a86a702e59"
  {
  }

  /** A 22-character text decoded five symbol chunks at a time. */
  lemma DecodedOfChunks(h: string, a: string, b: string, c: string, d: string, e: string)
    requires |h| == 2 && |a| == 4 && |b| == 4 && |c| == 4 && |d| == 4 && |e| == 4
    requires AllSymbols(a) && AllSymbols(b) && AllSymbols(c) && AllSymbols(d) && AllSymbols(e)
    ensures Decoded(h + (a + b + c + d + e))
      == Hyphenate(h + (ChunkText(a) + ChunkText(b) + ChunkText(c) + ChunkText(d) + ChunkText(e)))
  {
    var r := a + b + c + d + e;
    var s := h + r;
    assert |r| == 20 && s[2..] == r && s[..2] == h;
    ChunksDigits(a, b, c, d, e);
    DecodedOfSymbols(s);
  }

  lemma ChunksDigits(a: string, b: string, c: string, d: string, e: string)
    requires |a| == 4 && |b| == 4 && |c| == 4 && |d| == 4 && |e| == 4
    requires AllSymbols(a) && AllSymbols(b) && AllSymbols(c) && AllSymbols(d) && AllSymbols(e)
    ensures AllSymbols(a + b + c + d + e)
    ensures Digits(Untriple(Values(a + b + c + d + e)))
      == ChunkText(a) + ChunkText(b) + ChunkText(c) + ChunkText(d) + ChunkText(e)
  {
    var ab, abc, abcd := a + b, a + b + c, a + b + c + d;
    assert |ab| == 8 && |abc| == 12 && |abcd| == 16;
    SymbolDigitsAppend(a, b);
    SymbolDigitsAppend(ab, c);
    SymbolDigitsAppend(abc, d);
    SymbolDigitsAppend(abcd, e);
  }

  /** The hex digits of a run of symbol pairs. */
  function ChunkText(s: string): (t: string)
    requires |s| == 4 && AllSymbols(s)
    ensures |t| == 6
  {
    UntripleLength(Values(s));
    Digits(Untriple(Values(s)))
  }

  /** The thirty digits of the example, two symbol pairs at a time. */
  lemma GoldenChunks()
    ensures AllSymbols("mR3X") && ChunkText("mR3X") == "991dd7"
    ensures AllSymbols("ADNL") && ChunkText("ADNL") == "00334b"
    ensures AllSymbols("gJ1B") && ChunkText("gJ1B") == "809d41"
    ensures AllSymbols("yKhq") && ChunkText("yKhq") == "c8a86a"
    ensures AllSymbols("cC5Z") && ChunkText("cC5Z") == "702e59"
  {
    GoldenChunk1();
    GoldenChunk2();
    GoldenChunk3();
    GoldenChunk4();
    GoldenChunk5();
  }

  lemma GoldenChunk1()
    ensures AllSymbols("mR3X") && ChunkText("mR3X") == "991dd7"
  {
    ChunkOf('m', 'R', '3', 'X', 9, 9, 1, 13, 13, 7);
    assert [HexDigit(9), HexDigit(9), HexDigit(1), HexDigit(13), HexDigit(13), HexDigit(7)] == "991dd7";
  }

  lemma GoldenChunk2()
    ensures AllSymbols("ADNL") && ChunkText("ADNL") == "00334b"
  {
    ChunkOf('A', 'D', 'N', 'L', 0, 0, 3, 3, 4, 11);
    assert [HexDigit(0), HexDigit(0), HexDigit(3), HexDigit(3), HexDigit(4), HexDigit(11)] == "00334b";
  }

  lemma GoldenChunk3()
    ensures AllSymbols("gJ1B") && ChunkText("gJ1B") == "809d41"
  {
    ChunkOf('g', 'J', '1', 'B', 8, 0, 9, 13, 4, 1);
    assert [HexDigit(8), HexDigit(0), HexDigit(9), HexDigit(13), HexDigit(4), HexDigit(1)] == "809d41";
  }

  lemma GoldenChunk4()
    ensures AllSymbols("yKhq") && ChunkText("yKhq") == "c8a86a"
  {
    ChunkOf('y', 'K', 'h', 'q', 12, 8, 10, 8, 6, 10);
    assert [HexDigit(12), HexDigit(8), HexDigit(10), HexDigit(8), HexDigit(6), HexDigit(10)] == "c8a86a";
  }

  lemma GoldenChunk5()
    ensures AllSymbols("cC5Z") && ChunkText("cC5Z") == "702e59"
  {
    ChunkOf('c', 'C', '5', 'Z', 7, 0, 2, 14, 5, 9);
    assert [HexDigit(7), HexDigit(0), HexDigit(2), HexDigit(14), HexDigit(5), HexDigit(9)] == "702e59";
  }

  /** Two symbol pairs give six digits, three per pair. */
  lemma ChunkOf(c0: char, c1: char, c2: char, c3: char, n0: nibble, n1: nibble, n2: nibble, n3: nibble, n4: nibble, n5: nibble)
    requires IsSymbol(c0) && IsSymbol(c1) && IsSymbol(c2) && IsSymbol(c3)
    requires n0 == U0(SymbolValue(c0)) && n1 == U1(SymbolValue(c0), SymbolValue(c1)) && n2 == U2(SymbolValue(c1))
    requires n3 == U0(SymbolValue(c2)) && n4 == U1(SymbolValue(c2), SymbolValue(c3)) && n5 == U2(SymbolValue(c3))
    ensures AllSymbols([c0, c1, c2, c3])
    ensures ChunkText([c0, c1, c2, c3]) == [HexDigit(n0), HexDigit(n1), HexDigit(n2), HexDigit(n3), HexDigit(n4), HexDigit(n5)]
  {
    ValuesOfFour(c0, c1, c2, c3);
    UntripleOfFour(SymbolValue(c0), SymbolValue(c1), SymbolValue(c2), SymbolValue(c3));
  }

  lemma ValuesOfFour(c0: char, c1: char, c2: char, c3: char)
    requires IsSymbol(c0) && IsSymbol(c1) && IsSymbol(c2) && IsSymbol(c3)
    ensures AllSymbols([c0, c1, c2, c3])
    ensures Values([c0, c1, c2, c3]) == [SymbolValue(c0), SymbolValue(c1), SymbolValue(c2), SymbolValue(c3)]
  {
  }

  lemma UntripleOfFour(x0: sextet, x1: sextet, x2: sextet, x3: sextet)
    ensures Untriple([x0, x1, x2, x3]) == [U0(x0), U1(x0, x1), U2(x1), U0(x2), U1(x2, x3), U2(x3)]
  {
    assert [x0, x1, x2, x3][2..] == [x2, x3];
    assert [x2, x3][2..] == [];
  }

  lemma SymbolDigitsAppend(a: string, b: string)
    requires AllSymbols(a) && AllSymbols(b) && |a| % 2 == 0
    ensures AllSymbols(a + b)
    ensures Digits(Untriple(Values(a + b))) == Digits(Untriple(Values(a))) + Digits(Untriple(Values(b)))
  {
    assert AllSymbols(a + b);
    assert Values(a + b) == Values(a) + Values(b);
    UntripleAppend(Values(a), Values(b));
    DigitsAppend(Untriple(Values(a)), Untriple(Values(b)));
  }

  lemma {:induction false} UntripleAppend(a: seq<sextet>, b: seq<sextet>)
    requires |a| % 2 == 0
    ensures Untriple(a + b) == Untriple(a) + Untriple(b)
    decreases |a|
  {
    if |a| > 0 {
      assert (a + b)[2..] == a[2..] + b;
      UntripleAppend(a[2..], b);
    } else {
      assert a + b == b;
    }
  }

  lemma DigitsAppend(a: seq<nibble>, b: seq<nibble>)
    ensures Digits(a + b) == Digits(a) + Digits(b)
  {
    assert forall i :: 0 <= i < |a + b| ==> Digits(a + b)[i] == (Digits(a) + Digits(b))[i];
  }

  /** The four hyphens go between groups of 8, 4, 4, 4 and 12 digits. */
  lemma HyphenateParts(a: string, b: string, c: string, d: string, e: string)
    requires |a| == 8 && |b| == 4 && |c| == 4 && |d| == 4 && |e| == 12
    ensures Hyphenate(a + b + c + d + e) == a + "-" + b + "-" + c + "-" + d + "-" + e
  {
    var t := a + b + c + d + e;
    var u := a + "-" + b + "-" + c + "-" + d + "-" + e;
    forall i | 0 <= i < 36 ensures Hyphenate(t)[i] == u[i] {
    }
  }
}
