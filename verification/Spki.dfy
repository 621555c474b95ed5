/**
 The size of an RSA public key, read from its DER encoding (ITU-T X.690; RFC 5280, section 4.1;
 RFC 8017, appendix A.1.1), against the encoding itself.
*/
module Spki {

  type Byte = x: int | 0 <= x < 256

  datatype Error =
    | Truncated
    | MalformedLength
    | NotPublicKeyInfo
    | NotRsa
    | NoPublicKey
    | NoRsaPublicKey
    | NoModulus

  datatype Result<T> = Ok(value: T) | Err(error: Error)

  const SEQUENCE: Byte := 0x30
  const INTEGER: Byte := 0x02
  const BIT_STRING: Byte := 0x03
  const OBJECT_IDENTIFIER: Byte := 0x06
  const NULL: Byte := 0x05

  const RSA_ENCRYPTION_OID: seq<Byte> := [0x2a, 0x86, 0x48, 0x86, 0xf7, 0x0d, 0x01, 0x01, 0x01]

  // ---- numbers ----

  /** The octets from start up to end, read big-endian. */
  function Number(data: seq<Byte>, start: nat, end: nat): nat
    requires end <= |data|
    decreases end
  {
    if end <= start then 0 else Number(data, start, end - 1) * 256 + data[end - 1]
  }

  function ToBytes(n: nat): seq<Byte> {
    if n == 0 then [] else ToBytes(n / 256) + [n % 256]
  }

  function BitLength(n: nat): nat {
    if n == 0 then 0 else 1 + BitLength(n / 2)
  }

  /** Part of data, from offset on, reads as given. */
  ghost predicate HasAt(data: seq<Byte>, offset: nat, part: seq<Byte>) {
    offset + |part| <= |data| && forall k :: 0 <= k < |part| ==> data[offset + k] == part[k]
  }

  /** The same octets elsewhere are the same number. */
  lemma {:induction false} NumberAt(data: seq<Byte>, offset: nat, part: seq<Byte>, n: nat)
    requires HasAt(data, offset, part) && n <= |part|
    ensures Number(data, offset, offset + n) == Number(part, 0, n)
  {
    if n > 0 {
      NumberAt(data, offset, part, n - 1);
      assert data[offset + (n - 1)] == part[n - 1];
    }
  }

  lemma {:induction false} BytesBack(n: nat)
    ensures Number(ToBytes(n), 0, |ToBytes(n)|) == n
  {
    if n != 0 {
      var before, s := ToBytes(n / 256), ToBytes(n);
      BytesBack(n / 256);
      NumberAt(s, 0, before, |before|);
    }
  }

  lemma LeadingZero(s: seq<Byte>)
    ensures Number([0] + s, 0, |s| + 1) == Number(s, 0, |s|)
  {
    NumberAt([0] + s, 1, s, |s|);
    SkipZero([0] + s, |s| + 1);
  }

  lemma {:induction false} SkipZero(s: seq<Byte>, end: nat)
    requires 1 <= end <= |s| && s[0] == 0
    ensures Number(s, 0, end) == Number(s, 1, end)
    decreases end
  {
    if end > 1 { SkipZero(s, end - 1); }
  }

  function Pow2(k: nat): nat {
    if k == 0 then 1 else 2 * Pow2(k - 1)
  }

  /** The bit length of n is the least number of bits that n fits in. */
  lemma {:induction false} BitLengthIs(n: nat)
    ensures n < Pow2(BitLength(n)) && (n > 0 ==> BitLength(n) > 0 && Pow2(BitLength(n) - 1) <= n)
  {
    if n != 0 {
      BitLengthIs(n / 2);
    }
  }

  lemma {:induction false} FewBits(n: nat, k: nat)
    requires n < Pow2(k)
    ensures BitLength(n) <= k
  {
    if n != 0 { FewBits(n / 2, k - 1); }
  }

  lemma {:induction false} NumberBounded(data: seq<Byte>, start: nat, end: nat)
    requires start <= end <= |data|
    ensures Number(data, start, end) < Pow2(8 * (end - start))
    decreases end
  {
    if start < end {
      NumberBounded(data, start, end - 1);
      Pow2Byte(8 * (end - 1 - start));
    }
  }

  lemma Pow2Byte(k: nat)
    ensures Pow2(k + 8) == 256 * Pow2(k)
  {
    assert Pow2(k + 4) == 16 * Pow2(k) by {
      assert Pow2(k + 2) == 4 * Pow2(k);
    }
    assert Pow2(k + 6) == 4 * Pow2(k + 4);
  }

  // ---- reading ----

  /** Where the contents of an item are. */
  datatype Item = Item(tag: Byte, start: nat, end: nat)

  function DerItem(data: seq<Byte>, offset: nat): (r: Result<Item>)
    ensures r.Ok? ==> offset + 2 <= r.value.start <= r.value.end <= |data|
  {
    if offset + 2 > |data| then Err(Truncated)
    else
      var tag, length, start := data[offset], data[offset + 1], offset + 2;
      if length < 0x80 then
        if start + length > |data| then Err(Truncated) else Ok(Item(tag, start, start + length))
      else
        var count := length - 0x80;
        if count == 0 || count > 4 || start + count > |data| then Err(MalformedLength)
        else
          var long := Number(data, start, start + count);
          if start + count + long > |data| then Err(Truncated)
          else Ok(Item(tag, start + count, start + count + long))
  }

  /** The size of the modulus, or why this is not a public key; never a read past the end. */
  function SpkiRsaBits(der: seq<Byte>): (r: Result<nat>)
    ensures r.Ok? ==> r.value <= 8 * |der|
  {
    var info := DerItem(der, 0);
    if info.Err? then Err(info.error)
    else if info.value.tag != SEQUENCE || info.value.end != |der| then Err(NotPublicKeyInfo)
    else
      var afterAlgorithm := RsaAlgorithm(der, info.value.start);
      if afterAlgorithm.Err? then Err(afterAlgorithm.error) else KeyBits(der, afterAlgorithm.value)
  }

  /** Past the algorithm at offset, which must be RSA. */
  function RsaAlgorithm(der: seq<Byte>, offset: nat): (r: Result<nat>)
    ensures r.Ok? ==> offset < r.value <= |der|
  {
    var algorithm := DerItem(der, offset);
    if algorithm.Err? then Err(algorithm.error)
    else if algorithm.value.tag != SEQUENCE then Err(NotPublicKeyInfo)
    else
      var oid := DerItem(der, algorithm.value.start);
      if oid.Err? then Err(oid.error)
      else if oid.value.tag != OBJECT_IDENTIFIER || der[oid.value.start..oid.value.end] != RSA_ENCRYPTION_OID
        then Err(NotRsa)
      else Ok(algorithm.value.end)
  }

  /** The rest of the reading, from the bit string that holds the key. */
  function KeyBits(der: seq<Byte>, offset: nat): (r: Result<nat>)
    ensures r.Ok? ==> r.value <= 8 * |der|
  {
    var bits := DerItem(der, offset);
    if bits.Err? then Err(bits.error)
    else if bits.value.tag != BIT_STRING || bits.value.start >= bits.value.end || der[bits.value.start] != 0
      then Err(NoPublicKey)
    else ModulusBits(der, bits.value.start + 1)
  }

  /** The size of the modulus of the RSA public key at offset. */
  function ModulusBits(der: seq<Byte>, offset: nat): (r: Result<nat>)
    ensures r.Ok? ==> r.value <= 8 * |der|
  {
    var key := DerItem(der, offset);
    if key.Err? then Err(key.error)
    else if key.value.tag != SEQUENCE then Err(NoRsaPublicKey)
    else
      var modulus := DerItem(der, key.value.start);
      if modulus.Err? then Err(modulus.error)
      else if modulus.value.tag != INTEGER then Err(NoModulus)
      else
        var start, end := modulus.value.start, modulus.value.end;
        NumberBounded(der, start, end);
        FewBits(Number(der, start, end), 8 * (end - start));
        Ok(BitLength(Number(der, start, end)))
  }

  // ---- the encoding ----

  /** X.690, section 8.1.3, in the definite form and the fewest octets. */
  function LengthOctets(n: nat): seq<Byte>
    requires n < 0x1_0000_0000
  {
    FewBytes(n);
    if n < 0x80 then [n] else [0x80 + |ToBytes(n)|] + ToBytes(n)
  }

  lemma FewBytes(n: nat)
    requires n < 0x1_0000_0000
    ensures |ToBytes(n)| <= 4
  {
    assert |ToBytes(n / 0x100_0000)| <= 1;
    assert |ToBytes(n / 0x1_0000)| <= 2 by { assert n / 0x1_0000 / 256 == n / 0x100_0000; }
    assert |ToBytes(n / 256)| <= 3 by { assert n / 256 / 256 == n / 0x1_0000; }
  }

  function Head(tag: Byte, length: nat): seq<Byte>
    requires length < 0x1_0000_0000
  {
    [tag] + LengthOctets(length)
  }

  function Tlv(tag: Byte, contents: seq<Byte>): seq<Byte>
    requires |contents| < 0x1_0000_0000
  {
    Head(tag, |contents|) + contents
  }

  /** Two's complement, fewest octets: a leading zero where the top bit would read as a sign. */
  function IntegerContents(n: nat): seq<Byte> {
    var s := ToBytes(n);
    if s == [] || s[0] >= 0x80 then [0] + s else s
  }

  const ALGORITHM: seq<Byte> := Tlv(OBJECT_IDENTIFIER, RSA_ENCRYPTION_OID) + Tlv(NULL, [])

  /** RSAPublicKey, and the SubjectPublicKeyInfo around it: the parts, inside out. */
  datatype Parts = Parts(modulus: seq<Byte>, exponent: seq<Byte>)

  function PartsOf(modulus: nat, exponent: nat): Parts {
    Parts(IntegerContents(modulus), IntegerContents(exponent))
  }

  /** Contents short enough, layer by layer, for lengths of at most four octets. */
  predicate Encodable(p: Parts) {
    && |p.modulus| < 0x1_0000_0000 && |p.exponent| < 0x1_0000_0000
    && |KeyContents(p)| < 0x1_0000_0000
    && |BitContents(p)| < 0x1_0000_0000
    && |InfoContents(p)| < 0x1_0000_0000
  }

  function KeyContents(p: Parts): seq<Byte>
    requires |p.modulus| < 0x1_0000_0000 && |p.exponent| < 0x1_0000_0000
  {
    Tlv(INTEGER, p.modulus) + Tlv(INTEGER, p.exponent)
  }

  function BitContents(p: Parts): seq<Byte>
    requires |p.modulus| < 0x1_0000_0000 && |p.exponent| < 0x1_0000_0000
    requires |KeyContents(p)| < 0x1_0000_0000
  {
    [0] + Tlv(SEQUENCE, KeyContents(p))
  }

  function InfoContents(p: Parts): seq<Byte>
    requires |p.modulus| < 0x1_0000_0000 && |p.exponent| < 0x1_0000_0000
    requires |KeyContents(p)| < 0x1_0000_0000
    requires |BitContents(p)| < 0x1_0000_0000
  {
    Tlv(SEQUENCE, ALGORITHM) + Tlv(BIT_STRING, BitContents(p))
  }

  function Encode(p: Parts): seq<Byte>
    requires Encodable(p)
  {
    Tlv(SEQUENCE, InfoContents(p))
  }

  // ---- reading back ----

  lemma HasParts(data: seq<Byte>, offset: nat, first: seq<Byte>, second: seq<Byte>)
    requires HasAt(data, offset, first + second)
    ensures HasAt(data, offset, first) && HasAt(data, offset + |first|, second)
  {
    var both := first + second;
    forall k | 0 <= k < |first| ensures data[offset + k] == first[k] {
      assert both[k] == first[k];
    }
    forall k | 0 <= k < |second| ensures data[offset + |first| + k] == second[k] {
      assert both[|first| + k] == second[k];
    }
  }

  lemma ShortItemAt(data: seq<Byte>, offset: nat, tag: Byte, n: nat)
    requires n < 0x80 && HasAt(data, offset, [tag, n]) && offset + 2 + n <= |data|
    ensures DerItem(data, offset) == Ok(Item(tag, offset + 2, offset + 2 + n))
  {
    assert [tag, n][0] == data[offset] && [tag, n][1] == data[offset + 1];
  }

  lemma LongItemAt(data: seq<Byte>, offset: nat, tag: Byte, octets: seq<Byte>)
    requires 1 <= |octets| <= 4
    requires HasAt(data, offset, [tag, 0x80 + |octets|]) && HasAt(data, offset + 2, octets)
    requires offset + 2 + |octets| + Number(octets, 0, |octets|) <= |data|
    ensures DerItem(data, offset) ==
      Ok(Item(tag, offset + 2 + |octets|, offset + 2 + |octets| + Number(octets, 0, |octets|)))
  {
    var lead: seq<Byte> := [tag, 0x80 + |octets|];
    assert lead[0] == data[offset] && lead[1] == data[offset + 1];
    NumberAt(data, offset + 2, octets, |octets|);
  }

  lemma LongHead(tag: Byte, n: nat)
    requires 0x80 <= n < 0x1_0000_0000
    ensures 1 <= |ToBytes(n)| <= 4
    ensures Head(tag, n) == [tag, 0x80 + |ToBytes(n)|] + ToBytes(n)
  {
    FewBytes(n);
  }

  lemma ItemByLongHead(data: seq<Byte>, offset: nat, tag: Byte, n: nat)
    requires 0x80 <= n < 0x1_0000_0000 && HasAt(data, offset, Head(tag, n)) && offset + |Head(tag, n)| + n <= |data|
    ensures DerItem(data, offset) == Ok(Item(tag, offset + |Head(tag, n)|, offset + |Head(tag, n)| + n))
  {
    LongHead(tag, n);
    BytesBack(n);
    HasParts(data, offset, [tag, 0x80 + |ToBytes(n)|], ToBytes(n));
    LongItemAt(data, offset, tag, ToBytes(n));
  }

  lemma ItemByHead(data: seq<Byte>, offset: nat, tag: Byte, n: nat)
    requires n < 0x1_0000_0000 && HasAt(data, offset, Head(tag, n)) && offset + |Head(tag, n)| + n <= |data|
    ensures DerItem(data, offset) == Ok(Item(tag, offset + |Head(tag, n)|, offset + |Head(tag, n)| + n))
  {
    if n < 0x80 {
      assert Head(tag, n) == [tag, n];
      ShortItemAt(data, offset, tag, n);
    } else {
      ItemByLongHead(data, offset, tag, n);
    }
  }

  /** Wherever an item stands, it is read as it was written. */
  lemma ItemAt(data: seq<Byte>, offset: nat, tag: Byte, contents: seq<Byte>) returns (start: nat)
    requires |contents| < 0x1_0000_0000 && HasAt(data, offset, Tlv(tag, contents))
    ensures start + |contents| == offset + |Tlv(tag, contents)|
    ensures DerItem(data, offset) == Ok(Item(tag, start, start + |contents|))
    ensures HasAt(data, start, contents)
  {
    HasParts(data, offset, Head(tag, |contents|), contents);
    ItemByHead(data, offset, tag, |contents|);
    start := offset + |Head(tag, |contents|)|;
  }

  lemma ModulusReads(der: seq<Byte>, offset: nat, p: Parts)
    requires Encodable(p) && HasAt(der, offset, Tlv(SEQUENCE, KeyContents(p)))
    ensures ModulusBits(der, offset) == Ok(BitLength(Number(p.modulus, 0, |p.modulus|)))
  {
    var keyStart := ItemAt(der, offset, SEQUENCE, KeyContents(p));
    HasParts(der, keyStart, Tlv(INTEGER, p.modulus), Tlv(INTEGER, p.exponent));
    var start := ItemAt(der, keyStart, INTEGER, p.modulus);
    NumberAt(der, start, p.modulus, |p.modulus|);
  }

  lemma OctetAt(data: seq<Byte>, offset: nat, octet: Byte)
    requires HasAt(data, offset, [octet])
    ensures data[offset] == octet
  {
    assert data[offset + 0] == [octet][0];
  }

  /** Into the bit string: no unused bits, and then the key. */
  lemma BitsAt(der: seq<Byte>, offset: nat, key: seq<Byte>) returns (start: nat)
    requires |key| + 1 < 0x1_0000_0000 && HasAt(der, offset, Tlv(BIT_STRING, [0] + key))
    ensures DerItem(der, offset) == Ok(Item(BIT_STRING, start, start + 1 + |key|))
    ensures start < |der| && der[start] == 0 && HasAt(der, start + 1, key)
  {
    start := ItemAt(der, offset, BIT_STRING, [0] + key);
    HasParts(der, start, [0], key);
    OctetAt(der, start, 0);
  }

  /** What stands in the bit string is what is read. */
  lemma KeyBitsAre(der: seq<Byte>, offset: nat, bits: Item, size: nat)
    requires DerItem(der, offset) == Ok(bits) && bits.tag == BIT_STRING && bits.start < bits.end <= |der|
    requires der[bits.start] == 0 && ModulusBits(der, bits.start + 1) == Ok(size)
    ensures KeyBits(der, offset) == Ok(size)
  {
  }

  lemma KeyBitsReads(der: seq<Byte>, offset: nat, p: Parts)
    requires Encodable(p) && HasAt(der, offset, Tlv(BIT_STRING, BitContents(p)))
    ensures KeyBits(der, offset) == Ok(BitLength(Number(p.modulus, 0, |p.modulus|)))
  {
    var key := Tlv(SEQUENCE, KeyContents(p));
    var start := BitsAt(der, offset, key);
    ModulusReads(der, start + 1, p);
    KeyBitsAre(der, offset, Item(BIT_STRING, start, start + 1 + |key|), BitLength(Number(p.modulus, 0, |p.modulus|)));
  }

  lemma SliceAt(data: seq<Byte>, offset: nat, part: seq<Byte>)
    requires HasAt(data, offset, part)
    ensures data[offset..offset + |part|] == part
  {
  }

  lemma AlgorithmReads(der: seq<Byte>, offset: nat)
    requires HasAt(der, offset, Tlv(SEQUENCE, ALGORITHM))
    ensures RsaAlgorithm(der, offset) == Ok(offset + |Tlv(SEQUENCE, ALGORITHM)|)
  {
    var start := ItemAt(der, offset, SEQUENCE, ALGORITHM);
    HasParts(der, start, Tlv(OBJECT_IDENTIFIER, RSA_ENCRYPTION_OID), Tlv(NULL, []));
    var oidStart := ItemAt(der, start, OBJECT_IDENTIFIER, RSA_ENCRYPTION_OID);
    SliceAt(der, oidStart, RSA_ENCRYPTION_OID);
  }

  /** What the layers read, put together. */
  lemma LayersRead(der: seq<Byte>, start: nat, bitsAt: nat, size: nat)
    requires DerItem(der, 0) == Ok(Item(SEQUENCE, start, |der|))
    requires RsaAlgorithm(der, start) == Ok(bitsAt) && KeyBits(der, bitsAt) == Ok(size)
    ensures SpkiRsaBits(der) == Ok(size)
  {
  }

  lemma InfoAt(p: Parts) returns (start: nat)
    requires Encodable(p)
    ensures DerItem(Encode(p), 0) == Ok(Item(SEQUENCE, start, |Encode(p)|))
    ensures HasAt(Encode(p), start, Tlv(SEQUENCE, ALGORITHM))
    ensures HasAt(Encode(p), start + |Tlv(SEQUENCE, ALGORITHM)|, Tlv(BIT_STRING, BitContents(p)))
  {
    start := ItemAt(Encode(p), 0, SEQUENCE, InfoContents(p));
    HasParts(Encode(p), start, Tlv(SEQUENCE, ALGORITHM), Tlv(BIT_STRING, BitContents(p)));
  }

  lemma SpkiReads(p: Parts)
    requires Encodable(p)
    ensures SpkiRsaBits(Encode(p)) == Ok(BitLength(Number(p.modulus, 0, |p.modulus|)))
  {
    var start := InfoAt(p);
    var bitsAt := start + |Tlv(SEQUENCE, ALGORITHM)|;
    AlgorithmReads(Encode(p), start);
    KeyBitsReads(Encode(p), bitsAt, p);
    LayersRead(Encode(p), start, bitsAt, BitLength(Number(p.modulus, 0, |p.modulus|)));
  }

  lemma IntegerBack(n: nat)
    ensures Number(IntegerContents(n), 0, |IntegerContents(n)|) == n
  {
    BytesBack(n);
    LeadingZero(ToBytes(n));
  }

  /** Round trip: the size read from the encoding of any modulus and exponent is the modulus's bit length. */
  lemma RoundTrip(modulus: nat, exponent: nat)
    requires Encodable(PartsOf(modulus, exponent))
    ensures SpkiRsaBits(Encode(PartsOf(modulus, exponent))) == Ok(BitLength(modulus))
  {
    SpkiReads(PartsOf(modulus, exponent));
    IntegerBack(modulus);
  }

  /** Cut short anywhere, an encoding is refused. */
  lemma TruncatedIsRefused(p: Parts, k: nat)
    requires Encodable(p) && k < |Encode(p)|
    ensures SpkiRsaBits(Encode(p)[..k]).Err?
  {
    var start := InfoAt(p);
    CutItem(Encode(p), k);
  }

  lemma {:induction false} NumberOfPrefix(data: seq<Byte>, k: nat, start: nat, end: nat)
    requires end <= k <= |data|
    ensures Number(data[..k], start, end) == Number(data, start, end)
    decreases end
  {
    if start < end { NumberOfPrefix(data, k, start, end - 1); }
  }

  lemma CutItem(der: seq<Byte>, k: nat)
    requires k < |der| && DerItem(der, 0).Ok? && DerItem(der, 0).value.end == |der|
    ensures DerItem(der[..k], 0).Err?
  {
    if k >= 2 && der[1] >= 0x80 && 2 + der[1] - 0x80 <= k {
      NumberOfPrefix(der, k, 2, 2 + der[1] - 0x80);
    }
  }

  // ---- exactly what is accepted ----

  /** At offset stands an item (X.690, section 8.1): a tag, a length in one octet or in 1 to 4 more, the contents. */
  ghost predicate IsItem(data: seq<Byte>, offset: nat, tag: Byte, start: nat, end: nat) {
    && offset + 1 < |data| && data[offset] == tag && end <= |data|
    && if data[offset + 1] < 128 then start == offset + 2 && end == start + data[offset + 1]
       else
         var octets := data[offset + 1] - 128;
         1 <= octets <= 4 && start == offset + 2 + octets <= |data| && end == start + Number(data, offset + 2, start)
  }

  lemma ItemIff(data: seq<Byte>, offset: nat, tag: Byte, start: nat, end: nat)
    ensures DerItem(data, offset) == Ok(Item(tag, start, end)) <==> IsItem(data, offset, tag, start, end)
  {
  }

  /** Where a key's items begin and end: algorithm, its identifier, bit string, key, modulus. */
  datatype Layout = Layout(info: nat, algorithm: Item, oid: Item, bits: Item, key: Item, modulus: Item)

  ghost predicate Stands(data: seq<Byte>, offset: nat, item: Item) {
    IsItem(data, offset, item.tag, item.start, item.end)
  }

  /**
   A SubjectPublicKeyInfo that fills the data: a sequence of the algorithm, which starts with the identifier of
   RSA, and a bit string with no unused bits, which holds a sequence that starts with the modulus.
  */
  ghost predicate IsRsaKey(der: seq<Byte>, l: Layout) {
    && IsItem(der, 0, 0x30, l.info, |der|)
    && Stands(der, l.info, l.algorithm) && l.algorithm.tag == 0x30
    && Stands(der, l.algorithm.start, l.oid) && l.oid.tag == 0x06
    && l.oid.start <= l.oid.end && der[l.oid.start..l.oid.end] == [0x2a, 0x86, 0x48, 0x86, 0xf7, 0x0d, 1, 1, 1]
    && Stands(der, l.algorithm.end, l.bits) && l.bits.tag == 0x03
    && l.bits.start < l.bits.end && der[l.bits.start] == 0
    && Stands(der, l.bits.start + 1, l.key) && l.key.tag == 0x30
    && Stands(der, l.key.start, l.modulus) && l.modulus.tag == 0x02
  }

  ghost predicate HasKeyOfSize(der: seq<Byte>, size: nat) {
    exists l: Layout :: IsRsaKey(der, l) && size == BitLength(Number(der, l.modulus.start, l.modulus.end))
  }

  lemma ItemRead(data: seq<Byte>, offset: nat)
    requires DerItem(data, offset).Ok?
    ensures Stands(data, offset, DerItem(data, offset).value)
  {
    var item := DerItem(data, offset).value;
    ItemIff(data, offset, item.tag, item.start, item.end);
  }

  lemma ItemStands(data: seq<Byte>, offset: nat, item: Item)
    requires Stands(data, offset, item)
    ensures DerItem(data, offset) == Ok(item)
  {
    ItemIff(data, offset, item.tag, item.start, item.end);
  }

  lemma AlgorithmRead(der: seq<Byte>, offset: nat) returns (algorithm: Item, oid: Item)
    requires RsaAlgorithm(der, offset).Ok?
    ensures Stands(der, offset, algorithm) && algorithm.tag == 0x30 && RsaAlgorithm(der, offset).value == algorithm.end
    ensures Stands(der, algorithm.start, oid) && oid.tag == 0x06
    ensures oid.start <= oid.end && der[oid.start..oid.end] == [0x2a, 0x86, 0x48, 0x86, 0xf7, 0x0d, 1, 1, 1]
  {
    algorithm := DerItem(der, offset).value;
    oid := DerItem(der, algorithm.start).value;
    ItemRead(der, offset);
    ItemRead(der, algorithm.start);
  }

  lemma ModulusRead(der: seq<Byte>, offset: nat) returns (key: Item, modulus: Item)
    requires ModulusBits(der, offset).Ok?
    ensures Stands(der, offset, key) && key.tag == 0x30
    ensures Stands(der, key.start, modulus) && modulus.tag == 0x02
    ensures ModulusBits(der, offset).value == BitLength(Number(der, modulus.start, modulus.end))
  {
    key := DerItem(der, offset).value;
    modulus := DerItem(der, key.start).value;
    ItemRead(der, offset);
    ItemRead(der, key.start);
  }

  lemma BitsRead(der: seq<Byte>, offset: nat) returns (bits: Item)
    requires KeyBits(der, offset).Ok?
    ensures Stands(der, offset, bits) && bits.tag == 0x03 && bits.start < bits.end && der[bits.start] == 0
    ensures KeyBits(der, offset) == ModulusBits(der, bits.start + 1)
  {
    bits := DerItem(der, offset).value;
    ItemRead(der, offset);
  }

  lemma InfoRead(der: seq<Byte>) returns (info: nat)
    requires SpkiRsaBits(der).Ok?
    ensures IsItem(der, 0, 0x30, info, |der|) && RsaAlgorithm(der, info).Ok?
    ensures SpkiRsaBits(der) == KeyBits(der, RsaAlgorithm(der, info).value)
  {
    info := DerItem(der, 0).value.start;
    ItemRead(der, 0);
  }

  lemma AcceptedIsKey(der: seq<Byte>) returns (l: Layout)
    requires SpkiRsaBits(der).Ok?
    ensures IsRsaKey(der, l) && SpkiRsaBits(der).value == BitLength(Number(der, l.modulus.start, l.modulus.end))
  {
    var info := InfoRead(der);
    var algorithm, oid := AlgorithmRead(der, info);
    var bits := BitsRead(der, algorithm.end);
    var key, modulus := ModulusRead(der, bits.start + 1);
    l := Layout(info, algorithm, oid, bits, key, modulus);
  }

  lemma AlgorithmAccepted(der: seq<Byte>, l: Layout)
    requires IsRsaKey(der, l)
    ensures RsaAlgorithm(der, l.info) == Ok(l.algorithm.end)
  {
    ItemStands(der, l.info, l.algorithm);
    ItemStands(der, l.algorithm.start, l.oid);
  }

  lemma ModulusAccepted(der: seq<Byte>, l: Layout)
    requires IsRsaKey(der, l)
    ensures ModulusBits(der, l.bits.start + 1) == Ok(BitLength(Number(der, l.modulus.start, l.modulus.end)))
  {
    ItemStands(der, l.bits.start + 1, l.key);
    ItemStands(der, l.key.start, l.modulus);
  }

  lemma KeyIsAccepted(der: seq<Byte>, l: Layout)
    requires IsRsaKey(der, l)
    ensures SpkiRsaBits(der) == Ok(BitLength(Number(der, l.modulus.start, l.modulus.end)))
  {
    ItemStands(der, 0, Item(0x30, l.info, |der|));
    AlgorithmAccepted(der, l);
    BitsAccepted(der, l);
    LayersRead(der, l.info, l.algorithm.end, BitLength(Number(der, l.modulus.start, l.modulus.end)));
  }

  lemma BitsAccepted(der: seq<Byte>, l: Layout)
    requires IsRsaKey(der, l)
    ensures KeyBits(der, l.algorithm.end) == Ok(BitLength(Number(der, l.modulus.start, l.modulus.end)))
  {
    ItemStands(der, l.algorithm.end, l.bits);
    ModulusAccepted(der, l);
    KeyBitsAre(der, l.algorithm.end, l.bits, BitLength(Number(der, l.modulus.start, l.modulus.end)));
  }

  /** Of all the octet strings there are, exactly the RSA keys are accepted, each with the size of its modulus. */
  lemma AcceptsIff(der: seq<Byte>, size: nat)
    ensures SpkiRsaBits(der) == Ok(size) <==> HasKeyOfSize(der, size)
  {
    if SpkiRsaBits(der) == Ok(size) { var l := AcceptedIsKey(der); }
    if l: Layout :| IsRsaKey(der, l) && size == BitLength(Number(der, l.modulus.start, l.modulus.end)) {
      KeyIsAccepted(der, l);
    }
  }
}
