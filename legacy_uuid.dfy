/**
 * The earlier copy of the identifier codec (`_uuid.js`). Its loops walk
 * every position and keep the even ones, and `original_uuid` tests
 * `end.length % 3 == 1` twice, so a tail of length 2 modulo 3 is never
 * padded. Both differences are shown to leave every result unchanged.
 */
module LegacyUuid {
  import opened Hex
  import opened Base64
  import opened UuidUtils

  /** `compress_uuid` of `_uuid.js`: every index visited, pairs taken at even ones. */
  method LegacyCompressUuid(uuid: string) returns (r: string)
    ensures r == Compressed(uuid)
  {
    var header := Prefix(uuid, 5);
    var content := RemoveHyphens(Suffix(uuid, 5)) + "f";
    var arrStr := ParseEvenPairs(content);
    var base64Content := Encode(arrStr);
    r := header + DropLastTwo(base64Content);
  }

  /** `decompress_uuid` of `_uuid.js`. */
  method LegacyDecompressUuid(uuid: string) returns (r: string)
    ensures r == Decompressed(uuid)
  {
    var header := Prefix(uuid, 2);
    var content := RemoveHyphens(Suffix(uuid, 2)) + "f";
    var arrStr := ParseEvenPairs(content);
    var base64Content := Encode(arrStr);
    r := header + base64Content;
  }

  /**
   * The shared loop: `for (i = 0; i < content.length - 1; i++)`, pushing
   * `parseInt(content.slice(i, i + 2), 16)` when `i` is even. It parses
   * the same pairs as the loop stepping by two.
   */
  method ParseEvenPairs(content: string) returns (arrStr: seq<byte>)
    requires |content| >= 1
    ensures arrStr == PairBytes(content)
  {
    arrStr := [];
    var i := 0;
    ghost var k := 0;
    while i < |content| - 1
      invariant 0 <= i <= |content| - 1
      invariant 2 * k == i || 2 * k == i + 1
      invariant 2 * k <= |content|
      invariant arrStr == PairBytes(content[..2 * k])
    {
      if i % 2 == 0 {
        PairBytesSnoc(content, i);
        arrStr := arrStr + [ParseIntPair(content[i], content[i + 1])];
        k := k + 1;
      }
      i := i + 1;
    }
    PairBytesEnd(content, 2 * k);
  }

  /** The padding `_uuid.js` adds: `==` for a length of 1 modulo 3, nothing otherwise. */
  function LegacyPadding(n: nat): (pad: string)
    ensures pad == "" || pad[0] == '='
    ensures |pad| == 2 <==> n % 3 == 1
  {
    if n % 3 == 1 then "==" else if n % 3 == 1 then "=" else ""
  }

  /** `original_uuid` of `_uuid.js`. */
  function LegacyOriginalUuid(uuid: string): string
  {
    var header := Prefix(uuid, 5);
    var end := Suffix(uuid, 5);
    var temp := end + LegacyPadding(|end|);
    var longUuid := header + ToHex(Decode(temp));
    Prefix(Decompressed(longUuid), 4) + end
  }

  /** The repeated test leaves a tail of length 2 modulo 3 unpadded, where the later copy adds `=`. */
  lemma LegacyPaddingMissesTwo()
    ensures LegacyPadding(2) == "" && Padding(2) == "="
  {
  }

  /** The missing `=` is never seen: the decoder stops at the first `=`, so both copies restore alike. */
  lemma LegacyOriginalAgrees(uuid: string)
    ensures LegacyOriginalUuid(uuid) == OriginalUuid(uuid)
  {
    var end := Suffix(uuid, 5);
    DecodeIgnoresPadding(end, LegacyPadding(|end|));
    DecodeIgnoresPadding(end, Padding(|end|));
  }

  /** The legacy restore inverts the legacy compression into the legacy decompression. */
  lemma LegacyOriginalOfCompressed(u: string)
    requires IsUuidFrom(u, 2)
    ensures LegacyOriginalUuid(Compressed(u)) == Decompressed(u)
  {
    LegacyOriginalAgrees(Compressed(u));
    OriginalOfCompressed(u);
  }
}
