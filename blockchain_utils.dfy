/**
 * The mock "blockchain" hash: a 31-multiplier rolling hash over the UTF-16
 * code units of `evidenceId-uploaderId-timestamp-salt`, kept to a signed
 * 32-bit integer the way JavaScript's bitwise operators keep it, then
 * formatted as hexadecimal, prefixed with `0x`, left-padded with `0` to 66
 * characters and cut to 66; the integrity predicate that checks the `0x`
 * prefix and the length; and the record a QR code carries.
 *
 * The two `Math.random()` values are parameters: `salt` is the decimal text of
 * the first, `randomHex` the text `toString(16)` gives for the second.
 */
module BlockchainUtils {
  import opened JsText

  const TWO_31: int := 0x8000_0000
  const TWO_32: int := 0x1_0000_0000

  predicate IsInt32(x: int) {
    -TWO_31 <= x < TWO_31
  }

  /** ECMAScript ToInt32: the signed 32-bit integer congruent to `x` modulo 2^32. */
  function ToInt32(x: int): (r: int)
    ensures IsInt32(r)
    ensures (x - r) % TWO_32 == 0
    ensures IsInt32(x) ==> r == x
  {
    (x + TWO_31) % TWO_32 - TWO_31
  }

  /** ToInt32 only depends on its argument modulo 2^32. */
  lemma ToInt32Periodic(x: int, q: int)
    ensures ToInt32(x + q * TWO_32) == ToInt32(x)
  {
    var a := x + TWO_31;
    assert (a + q * TWO_32) % TWO_32 == a % TWO_32;
  }

  /** `x << 5` on a JavaScript number: the operand is taken to 32 bits, shifted, and the result read as signed. */
  function ShiftLeft5(x: int): int {
    ToInt32(ToInt32(x) * 32)
  }

  /** One round of the loop, `((hash << 5) - hash) + char` followed by `hash & hash`, is `31 * hash + char` taken to 32 bits. */
  lemma {:induction false} HashRound(h: int, c: int)
    requires IsInt32(h)
    ensures ToInt32(ShiftLeft5(h) - h + c) == ToInt32(31 * h + c)
  {
    var s := ShiftLeft5(h);
    var q := (h * 32 - s) / TWO_32;
    assert h * 32 - s == q * TWO_32;
    assert s - h + c == 31 * h + c + (-q) * TWO_32;
    ToInt32Periodic(31 * h + c, -q);
  }

  /** The value the rolling-hash loop ends with on the code units `units`. */
  function HashOf(units: seq<int>): (h: int)
    ensures IsInt32(h)
  {
    if units == [] then 0 else ToInt32(31 * HashOf(units[..|units| - 1]) + units[|units| - 1])
  }

  function Abs(x: int): nat {
    if x < 0 then -x else x
  }

  /** The text the hash is computed over: `${evidenceId}-${uploaderId}-${timestamp}-${salt}`. */
  function HashData(evidenceId: string, uploaderId: string, timestamp: nat, salt: string): string {
    evidenceId + "-" + uploaderId + "-" + NumberToString(timestamp, 10) + "-" + salt
  }

  /** The hash before padding: `0x`, the hex digits of `|hash|`, and up to 8 characters of the random suffix, lower-cased. */
  function Unpadded(hash: int, randomHex: string): string {
    ToLower("0x" + NumberToString(Abs(hash), 16) + Substr(randomHex, 2, 8))
  }

  /** The formatting step: pad on the left with `0` to 66 characters, then keep the first 66. */
  function FormatHash(hash: int, randomHex: string): string {
    Substr(PadStart(Unpadded(hash, randomHex), 66, '0'), 0, 66)
  }

  /** What `generateBlockchainHash(evidenceId, uploaderId, timestamp)` returns for the given random values. */
  function BlockchainHash(evidenceId: string, uploaderId: string, timestamp: nat, salt: string, randomHex: string): string {
    FormatHash(HashOf(Utf16(HashData(evidenceId, uploaderId, timestamp, salt))), randomHex)
  }

  /**
   * `verifyHashIntegrity`: starts with `0x` and has `length` 66, where
   * `length` counts UTF-16 code units.
   */
  predicate VerifyHashIntegrity(hashKey: string) {
    |hashKey| >= 2 && hashKey[..2] == "0x" && |Utf16(hashKey)| == 66
  }

  /** A 32-bit magnitude has at most 8 hex digits, so the unpadded text is at most 18 characters and starts with `0x`. */
  lemma UnpaddedShape(hash: int, randomHex: string)
    requires IsInt32(hash)
    ensures |Unpadded(hash, randomHex)| <= 18
    ensures |Unpadded(hash, randomHex)| >= 2 && Unpadded(hash, randomHex)[..2] == "0x"
  {
    assert Pow(16, 8) == 0x1_0000_0000 by {
      assert Pow(16, 4) == 0x1_0000;
      assert Pow(16, 8) == Pow(16, 4) * Pow(16, 4) by { PowAdd(16, 4, 4); }
    }
    NumberToStringLength(Abs(hash), 16, 8);
    var raw := "0x" + NumberToString(Abs(hash), 16) + Substr(randomHex, 2, 8);
    ToLowerFacts(raw);
    assert raw[0] == '0' && raw[1] == 'x';
  }

  lemma {:induction false} PowAdd(b: nat, j: nat, k: nat)
    ensures Pow(b, j + k) == Pow(b, j) * Pow(b, k)
  {
    if j > 0 {
      PowAdd(b, j - 1, k);
      assert Pow(b, j + k) == b * Pow(b, j - 1 + k);
    }
  }

  /**
   * The generated hash is always exactly 66 characters: 48 or more `0`
   * characters followed by the unpadded text. It therefore begins with `00`,
   * not `0x`, and `verifyHashIntegrity` rejects it.
   */
  lemma GeneratedHashRejected(hash: int, randomHex: string)
    requires IsInt32(hash)
    ensures |Unpadded(hash, randomHex)| <= 18
    ensures var u := Unpadded(hash, randomHex);
      FormatHash(hash, randomHex) == seq(66 - |u|, _ => '0') + u
    ensures |FormatHash(hash, randomHex)| == 66
    ensures FormatHash(hash, randomHex)[..2] == "00"
    ensures !VerifyHashIntegrity(FormatHash(hash, randomHex))
  {
    UnpaddedShape(hash, randomHex);
    var u := Unpadded(hash, randomHex);
    var padded := PadStart(u, 66, '0');
    assert padded == seq(66 - |u|, _ => '0') + u;
    assert FormatHash(hash, randomHex) == padded;
    assert padded[0] == '0' && padded[1] == '0';
  }

  /**
   * `generateBlockchainHash`, written as the source writes it: a loop over the
   * code units of the data, then the formatting.
   */
  method GenerateBlockchainHash(evidenceId: string, uploaderId: string, timestamp: nat, salt: string, randomHex: string)
    returns (hashKey: string)
    ensures hashKey == BlockchainHash(evidenceId, uploaderId, timestamp, salt, randomHex)
  {
    var data := Utf16(HashData(evidenceId, uploaderId, timestamp, salt));
    var hash := 0;
    for i := 0 to |data|
      invariant IsInt32(hash)
      invariant hash == HashOf(data[..i])
    {
      var code := data[i];  // `data.charCodeAt(i)`
      HashRound(hash, code);
      assert data[..i + 1][..i] == data[..i];
      hash := ShiftLeft5(hash) - hash + code;
      hash := ToInt32(hash);  // `hash & hash`
    }
    assert data[..|data|] == data;
    var baseHash := NumberToString(Abs(hash), 16);
    var randomSuffix := Substr(randomHex, 2, 8);
    hashKey := Substr(PadStart(ToLower("0x" + baseHash + randomSuffix), 66, '0'), 0, 66);
  }

  /** Whatever its inputs, a generated hash is 66 characters long, begins with `00` and fails `verifyHashIntegrity`. */
  lemma BlockchainHashRejected(evidenceId: string, uploaderId: string, timestamp: nat, salt: string, randomHex: string)
    ensures var h := BlockchainHash(evidenceId, uploaderId, timestamp, salt, randomHex);
      |h| == 66 && h[..2] == "00" && !VerifyHashIntegrity(h)
  {
    var hash := HashOf(Utf16(HashData(evidenceId, uploaderId, timestamp, salt)));
    GeneratedHashRejected(hash, randomHex);
  }

  /** The record `generateQRCodeData` serialises. */
  datatype QrPayload = QrPayload(evidenceId: string, hashKey: string, timestamp: nat, blockchain: string, version: string)

  /** `generateQRCodeData(evidenceId, hashKey)`, before JSON encoding; `now` is the clock reading. */
  function GenerateQRCodeData(evidenceId: string, hashKey: string, now: nat): QrPayload {
    QrPayload(evidenceId, hashKey, now, "EVICHAIN", "1.0")
  }
}
