/**
 The strict DER reader that finds the public key of a certificate: headers of
 section 10.1 of X.690 and the certificate of section 4.1 of RFC 5280.
 */
module Der {
  import opened Options
  import opened Binary

  const TWO_32 := 0x1_0000_0000
  const SEQUENCE := 0x30
  const BIT_STRING := 0x03
  const VERSION := 0xA0

  /** What a header at some offset says: the tag, and where the value starts and ends. */
  datatype Tlv = Tlv(tag: Byte, body: nat, end: nat)

  predicate LowTag(tag: Byte) {
    tag % 32 != 31
  }

  // ------------------------------------------------------------ reader

  function ReadTlv(data: seq<Byte>, offset: nat): (r: Option<Tlv>)
    ensures r.Some? ==> offset + 2 <= r.value.body <= r.value.end <= |data|
  {
    if offset + 2 > |data| || !LowTag(data[offset]) then None
    else
      var tag, octet := data[offset], data[offset + 1];
      if octet >= 128 then
        var count := octet % 128;
        if count == 0 || count > 4 || offset + 2 + count > |data| then None
        else
          var bytes := data[offset + 2..offset + 2 + count];
          var length := Number(bytes);
          if bytes[0] == 0 || length < 128 || offset + 2 + count + length > |data| then None
          else Some(Tlv(tag, offset + 2 + count, offset + 2 + count + length))
      else if offset + 2 + octet > |data| then None
      else Some(Tlv(tag, offset + 2, offset + 2 + octet))
  }

  /** Reads n items from offset, none of which ends after limit. */
  function Skip(data: seq<Byte>, offset: nat, limit: nat, n: nat): (r: Option<nat>)
    ensures r.Some? ==> offset <= r.value && (n > 0 ==> r.value <= limit)
    decreases n
  {
    if n == 0 then Some(offset)
    else
      var t := ReadTlv(data, offset);
      if t.None? || t.value.end > limit then None else Skip(data, t.value.end, limit, n - 1)
  }

  /** Where the SubjectPublicKeyInfo of a certificate starts and ends. */
  datatype Slice = Slice(start: nat, end: nat)

  /** The key info that starts at offset and ends by limit. */
  function ReadSpki(data: seq<Byte>, offset: nat, limit: nat): (r: Option<Slice>)
    ensures r.Some? ==> r.value.start == offset <= r.value.end <= limit && r.value.end <= |data|
  {
    var spki := ReadTlv(data, offset);
    if spki.None? || spki.value.tag != SEQUENCE || spki.value.end > limit then None
    else
      var algorithm := ReadTlv(data, spki.value.body);
      if algorithm.None? then None
      else
        var key := ReadTlv(data, algorithm.value.end);
        if key.None? || algorithm.value.tag != SEQUENCE || key.value.tag != BIT_STRING || key.value.end != spki.value.end then None
        else Some(Slice(offset, spki.value.end))
  }

  function FindSpki(data: seq<Byte>): (r: Option<Slice>)
    ensures r.Some? ==> r.value.start <= r.value.end <= |data|
  {
    var cert := ReadTlv(data, 0);
    if cert.None? || cert.value.tag != SEQUENCE || cert.value.end != |data| then None
    else
      var tbs := ReadTlv(data, cert.value.body);
      if tbs.None? || tbs.value.tag != SEQUENCE then None
      else
        ReadBody(data, tbs.value.body, tbs.value.end)
  }

  /** Where the fields start: after the version, if there is one. */
  function FieldsStart(first: Tlv, v: nat): nat {
    if first.tag == VERSION then first.end else v
  }

  /** The key info of a certificate body that starts at v and ends at limit. */
  function ReadBody(data: seq<Byte>, v: nat, limit: nat): (r: Option<Slice>)
    ensures r.Some? ==> r.value.start <= r.value.end <= limit && r.value.end <= |data|
  {
    var first := ReadTlv(data, v);
    if first.None? then None
    else
      var spki := Skip(data, FieldsStart(first.value, v), limit, 5);
      if spki.None? then None else ReadSpki(data, spki.value, limit)
  }

  /** The loop over the five fields before the key info. */
  method SkipFields(data: seq<Byte>, start: nat, limit: nat) returns (r: Option<nat>)
    ensures r == Skip(data, start, limit, 5)
  {
    var offset, n := start, 5;
    while n > 0
      invariant 0 <= n <= 5 && Skip(data, start, limit, 5) == Skip(data, offset, limit, n)
    {
      var field := ReadTlv(data, offset);
      if field.None? || field.value.end > limit {
        return None;
      }
      offset, n := field.value.end, n - 1;
    }
    r := Some(offset);
  }

  /** extract_spki_der; None is an error. */
  method ExtractSpki(data: seq<Byte>) returns (r: Option<seq<Byte>>)
    ensures r == if FindSpki(data).Some? then Some(data[FindSpki(data).value.start..FindSpki(data).value.end]) else None
  {
    var cert := ReadTlv(data, 0);
    if cert.None? || cert.value.tag != SEQUENCE || cert.value.end != |data| {
      return None;
    }
    var tbs := ReadTlv(data, cert.value.body);
    if tbs.None? || tbs.value.tag != SEQUENCE {
      return None;
    }
    var offset := tbs.value.body;
    var first := ReadTlv(data, offset);
    if first.None? {
      return None;
    }
    if first.value.tag == VERSION {
      offset := first.value.end;
    }
    var start := SkipFields(data, offset, tbs.value.end);
    if start.None? {
      return None;
    }
    var spki := ReadSpki(data, start.value, tbs.value.end);
    r := if spki.None? then None else Some(data[start.value..spki.value.end]);
  }

  // ------------------------------------------------------------ headers

  /** The bytes a long length takes. */
  function LengthSize(n: nat): nat
    requires 128 <= n < TWO_32
  {
    if n < 0x100 then 1 else if n < 0x1_0000 then 2 else if n < 0x100_0000 then 3 else 4
  }

  /** The one header for a tag and a length. */
  function Header(tag: Byte, n: nat): (r: seq<Byte>)
    requires n < TWO_32
    ensures 2 <= |r| <= 6
  {
    if n < 128 then [tag, n] else [tag, 128 + LengthSize(n)] + BigEndian(n, LengthSize(n))
  }

  lemma Powers()
    ensures Power256(0) == 1 && Power256(1) == 0x100 && Power256(2) == 0x1_0000 && Power256(3) == 0x100_0000 && Power256(4) == TWO_32
  {
    assert Power256(3) == 256 * Power256(2);
    assert Power256(4) == 256 * Power256(3);
  }

  lemma BigEndianFirst(n: nat, size: nat)
    requires size > 0 && n < Power256(size)
    ensures BigEndian(n, size)[0] == 0 <==> n < Power256(size - 1)
  {
    BigEndianNumber(n, size);
    var bytes := BigEndian(n, size);
    NumberBound(bytes);
    if bytes[0] == 0 {
      LeadingZero(bytes);
      NumberBound(bytes[1..]);
    }
  }

  lemma {:induction false} LeadingZero(bytes: seq<Byte>)
    requires bytes != [] && bytes[0] == 0
    ensures Number(bytes) == Number(bytes[1..])
  {
    if |bytes| > 1 {
      var init := bytes[..|bytes| - 1];
      LeadingZero(init);
      assert bytes[1..][..|bytes| - 2] == init[1..];
    }
  }

  /** The length bytes of a long header are the shortest ones. */
  lemma LongLength(n: nat)
    requires 128 <= n < TWO_32
    ensures var bytes := BigEndian(n, LengthSize(n)); bytes[0] != 0 && Number(bytes) == n
  {
    Powers();
    BigEndianNumber(n, LengthSize(n));
    BigEndianFirst(n, LengthSize(n));
  }

  lemma LengthBytes(bytes: seq<Byte>)
    requires 1 <= |bytes| <= 4 && bytes[0] != 0 && Number(bytes) >= 128
    ensures Number(bytes) < TWO_32 && LengthSize(Number(bytes)) == |bytes| && BigEndian(Number(bytes), |bytes|) == bytes
  {
    NumberBound(bytes);
    SizeOf(Number(bytes), |bytes|);
    NumberBigEndian(bytes);
  }

  lemma SizeOf(n: nat, size: nat)
    requires 1 <= size <= 4 && Power256(size - 1) <= n < Power256(size) && n >= 128
    ensures n < TWO_32 && LengthSize(n) == size
  {
    Powers();
    assert size == 1 || size == 2 || size == 3 || size == 4;
  }

  lemma ReadLong(data: seq<Byte>, offset: nat, tag: Byte, bytes: seq<Byte>)
    requires LowTag(tag) && 1 <= |bytes| <= 4 && bytes[0] != 0 && Number(bytes) >= 128
    requires offset + 2 + |bytes| + Number(bytes) <= |data|
    requires data[offset] == tag && data[offset + 1] == 128 + |bytes| && data[offset + 2..offset + 2 + |bytes|] == bytes
    ensures ReadTlv(data, offset) == Some(Tlv(tag, offset + 2 + |bytes|, offset + 2 + |bytes| + Number(bytes)))
  {
    var count := data[offset + 1] % 128;
    assert count == |bytes|;
    assert data[offset + 2..offset + 2 + count] == bytes;
  }

  lemma SliceOf(data: seq<Byte>, offset: nat, a: Byte, b: Byte, bytes: seq<Byte>)
    requires offset + 2 + |bytes| <= |data|
    ensures data[offset..offset + 2 + |bytes|] == [a, b] + bytes
       <==> data[offset] == a && data[offset + 1] == b && data[offset + 2..offset + 2 + |bytes|] == bytes
  {
    var whole := data[offset..offset + 2 + |bytes|];
    assert whole[2..] == data[offset + 2..offset + 2 + |bytes|];
    assert whole == [whole[0], whole[1]] + whole[2..];
    assert ([a, b] + bytes)[2..] == bytes;
  }

  /** A header is read as what it encodes. */
  lemma ReadHeader(data: seq<Byte>, offset: nat, tag: Byte, n: nat)
    requires LowTag(tag) && n < TWO_32
    requires var h := Header(tag, n); offset + |h| + n <= |data| && data[offset..offset + |h|] == h
    ensures var h := Header(tag, n); ReadTlv(data, offset) == Some(Tlv(tag, offset + |h|, offset + |h| + n))
  {
    if n >= 128 {
      var bytes := BigEndian(n, LengthSize(n));
      LongLength(n);
      SliceOf(data, offset, tag, 128 + |bytes|, bytes);
      ReadLong(data, offset, tag, bytes);
    } else {
      ReadShort(data, offset, tag, n);
    }
  }

  lemma ReadShort(data: seq<Byte>, offset: nat, tag: Byte, n: nat)
    requires LowTag(tag) && n < 128 && offset + 2 + n <= |data| && data[offset..offset + 2] == [tag, n]
    ensures ReadTlv(data, offset) == Some(Tlv(tag, offset + 2, offset + 2 + n))
  {
    assert data[offset] == data[offset..offset + 2][0] && data[offset + 1] == data[offset..offset + 2][1];
  }

  /** What is read was encoded by the one header. */
  lemma HeaderRead(data: seq<Byte>, offset: nat)
    requires ReadTlv(data, offset).Some?
    ensures var t := ReadTlv(data, offset).value;
      && LowTag(t.tag) && t.end - t.body < TWO_32
      && data[offset..t.body] == Header(t.tag, t.end - t.body)
  {
    var count := data[offset + 1] % 128;
    if data[offset + 1] >= 128 {
      var bytes := data[offset + 2..offset + 2 + count];
      LengthBytes(bytes);
      SliceOf(data, offset, data[offset], data[offset + 1], bytes);
    } else {
      assert data[offset..offset + 2] == [data[offset], data[offset + 1]];
    }
  }

  /** The reader accepts exactly one header for each low tag and each length
      below 2^32. */
  lemma HeaderIff(data: seq<Byte>, offset: nat, t: Tlv)
    requires offset <= t.body <= t.end <= |data|
    ensures ReadTlv(data, offset) == Some(t)
       <==> LowTag(t.tag) && t.end - t.body < TWO_32 && data[offset..t.body] == Header(t.tag, t.end - t.body)
  {
    if ReadTlv(data, offset) == Some(t) {
      HeaderRead(data, offset);
    }
    if LowTag(t.tag) && t.end - t.body < TWO_32 && data[offset..t.body] == Header(t.tag, t.end - t.body) {
      ReadHeader(data, offset, t.tag, t.end - t.body);
    }
  }

  // ------------------------------------------------------------ items

  datatype Item = Item(tag: Byte, content: seq<Byte>)

  predicate Sound(i: Item) {
    LowTag(i.tag) && |i.content| < TWO_32
  }

  function Encoded(i: Item): seq<Byte>
    requires Sound(i)
  {
    Header(i.tag, |i.content|) + i.content
  }

  /** What is left of data from offset on. */
  predicate Left(data: seq<Byte>, offset: nat, rest: seq<Byte>) {
    if offset == 0 then data == rest else data != [] && Left(data[1..], offset - 1, rest)
  }

  lemma {:induction false} LeftIs(data: seq<Byte>, offset: nat, rest: seq<Byte>)
    ensures Left(data, offset, rest) <==> offset <= |data| && data[offset..] == rest
  {
    if offset > 0 && data != [] {
      LeftIs(data[1..], offset - 1, rest);
      if offset <= |data| {
        assert data[1..][offset - 1..] == data[offset..];
      }
    }
  }

  lemma LeftAfter(data: seq<Byte>, offset: nat, x: seq<Byte>, rest: seq<Byte>)
    requires Left(data, offset, x + rest)
    ensures offset + |x| <= |data| && data[offset..offset + |x|] == x && Left(data, offset + |x|, rest)
  {
    LeftIs(data, offset, x + rest);
    LeftIs(data, offset + |x|, rest);
    assert data[offset..][..|x|] == x && data[offset..][|x|..] == rest;
  }

  lemma LeftAll(data: seq<Byte>)
    ensures Left(data, 0, data + []) && data + [] == data
  {
  }

  function BodyAt(offset: nat, i: Item): nat
    requires Sound(i)
  {
    offset + |Header(i.tag, |i.content|)|
  }

  function EndAt(offset: nat, i: Item): nat
    requires Sound(i)
  {
    BodyAt(offset, i) + |i.content|
  }

  /** An item is read as it was encoded; its content and what follows it are next. */
  lemma ReadItem(data: seq<Byte>, offset: nat, i: Item, rest: seq<Byte>)
    requires Sound(i) && Left(data, offset, Encoded(i) + rest)
    ensures ReadTlv(data, offset) == Some(Tlv(i.tag, BodyAt(offset, i), EndAt(offset, i)))
    ensures Left(data, BodyAt(offset, i), i.content + rest) && Left(data, EndAt(offset, i), rest)
  {
    var h := Header(i.tag, |i.content|);
    assert Encoded(i) + rest == h + (i.content + rest);
    LeftAfter(data, offset, h, i.content + rest);
    LeftAfter(data, offset + |h|, i.content, rest);
    ReadHeader(data, offset, i.tag, |i.content|);
  }

  /** Whatever is read is the encoding of an item. */
  function ItemOf(data: seq<Byte>, offset: nat): Item
    requires ReadTlv(data, offset).Some?
  {
    var t := ReadTlv(data, offset).value;
    Item(t.tag, data[t.body..t.end])
  }

  lemma ItemRead(data: seq<Byte>, offset: nat)
    requires ReadTlv(data, offset).Some?
    ensures var i, t := ItemOf(data, offset), ReadTlv(data, offset).value;
      Sound(i) && t.body == BodyAt(offset, i) && t.end == EndAt(offset, i) && Encoded(i) == data[offset..t.end]
  {
    HeaderRead(data, offset);
    var t := ReadTlv(data, offset).value;
    assert data[offset..t.end] == data[offset..t.body] + data[t.body..t.end];
  }

  predicate AllSound(items: seq<Item>) {
    forall k :: 0 <= k < |items| ==> Sound(items[k])
  }

  function EncodedAll(items: seq<Item>): seq<Byte>
    requires AllSound(items)
  {
    if items == [] then [] else Encoded(items[0]) + EncodedAll(items[1..])
  }

  lemma Regroup(a: seq<Byte>, b: seq<Byte>, c: seq<Byte>)
    ensures a + b + c == a + (b + c)
  {
  }

  lemma EndIs(offset: nat, i: Item)
    requires Sound(i)
    ensures EndAt(offset, i) == offset + |Encoded(i)|
  {
  }

  lemma {:induction false} SkipItems(data: seq<Byte>, offset: nat, limit: nat, items: seq<Item>, rest: seq<Byte>)
    requires AllSound(items) && Left(data, offset, EncodedAll(items) + rest)
    requires offset + |EncodedAll(items)| <= limit
    ensures Skip(data, offset, limit, |items|) == Some(offset + |EncodedAll(items)|)
    decreases |items|
  {
    if items != [] {
      SkipOne(data, offset, items, rest);
      SkipItems(data, EndAt(offset, items[0]), limit, items[1..], rest);
    }
  }

  lemma SkipOne(data: seq<Byte>, offset: nat, items: seq<Item>, rest: seq<Byte>)
    requires items != [] && AllSound(items) && Left(data, offset, EncodedAll(items) + rest)
    ensures ReadTlv(data, offset) == Some(Tlv(items[0].tag, BodyAt(offset, items[0]), EndAt(offset, items[0])))
    ensures AllSound(items[1..]) && Left(data, EndAt(offset, items[0]), EncodedAll(items[1..]) + rest)
    ensures offset + |EncodedAll(items)| == EndAt(offset, items[0]) + |EncodedAll(items[1..])|
  {
    Regroup(Encoded(items[0]), EncodedAll(items[1..]), rest);
    ReadItem(data, offset, items[0], EncodedAll(items[1..]) + rest);
    EndIs(offset, items[0]);
  }

  lemma {:induction false} ItemsSkipped(data: seq<Byte>, offset: nat, limit: nat, n: nat) returns (items: seq<Item>)
    requires offset <= |data| && Skip(data, offset, limit, n).Some?
    ensures |items| == n && AllSound(items) && (n > 0 ==> ReadTlv(data, offset).Some? && items[0] == ItemOf(data, offset))
    ensures var end := Skip(data, offset, limit, n).value; end <= |data| && EncodedAll(items) == data[offset..end]
    decreases n
  {
    items := [];
    if n > 0 {
      ItemRead(data, offset);
      var i, next := ItemOf(data, offset), ReadTlv(data, offset).value.end;
      var rest := ItemsSkipped(data, next, limit, n - 1);
      items := [i] + rest;
      assert items[1..] == rest;
      SliceJoin(data, offset, next, Skip(data, offset, limit, n).value);
    }
  }

  lemma SliceJoin(data: seq<Byte>, a: nat, b: nat, c: nat)
    requires a <= b <= c <= |data|
    ensures data[a..c] == data[a..b] + data[b..c]
  {
  }

  // ------------------------------------------------------------ certificates

  /** A certificate as section 4.1 of RFC 5280 lays it out: an optional version,
      five fields, the key info, what follows it in the body, and what follows
      the body. */
  datatype Parts = Parts(version: Option<Item>, fields: seq<Item>, algorithm: Item, key: Item,
                         more: seq<Byte>, after: seq<Byte>)

  predicate SoundParts(p: Parts) {
    && (p.version.Some? ==> Sound(p.version.value) && p.version.value.tag == VERSION)
    && |p.fields| == 5 && AllSound(p.fields)
    && (p.version.None? ==> p.fields[0].tag != VERSION)
    && Sound(p.algorithm) && p.algorithm.tag == SEQUENCE && Sound(p.key) && p.key.tag == BIT_STRING
  }

  function SpkiItem(p: Parts): Item
    requires SoundParts(p)
  {
    Item(SEQUENCE, Encoded(p.algorithm) + Encoded(p.key))
  }

  function VersionBytes(p: Parts): seq<Byte>
    requires SoundParts(p)
  {
    if p.version.Some? then Encoded(p.version.value) else []
  }

  function TbsItem(p: Parts): Item
    requires SoundParts(p) && Sound(SpkiItem(p))
  {
    Item(SEQUENCE, VersionBytes(p) + (EncodedAll(p.fields) + (Encoded(SpkiItem(p)) + p.more)))
  }

  function CertificateItem(p: Parts): Item
    requires SoundParts(p) && Sound(SpkiItem(p)) && Sound(TbsItem(p))
  {
    Item(SEQUENCE, Encoded(TbsItem(p)) + p.after)
  }

  /** No part is 2^32 bytes or longer. */
  predicate Whole(p: Parts) {
    SoundParts(p) && Sound(SpkiItem(p)) && Sound(TbsItem(p)) && Sound(CertificateItem(p))
  }

  lemma ReadSpkiOf(data: seq<Byte>, offset: nat, limit: nat, p: Parts, rest: seq<Byte>)
    requires SoundParts(p) && Sound(SpkiItem(p)) && Left(data, offset, Encoded(SpkiItem(p)) + rest)
    requires EndAt(offset, SpkiItem(p)) <= limit
    ensures ReadSpki(data, offset, limit) == Some(Slice(offset, EndAt(offset, SpkiItem(p))))
  {
    var spki := SpkiItem(p);
    ReadItem(data, offset, spki, rest);
    assert spki.content + rest == Encoded(p.algorithm) + (Encoded(p.key) + rest);
    ReadItem(data, BodyAt(offset, spki), p.algorithm, Encoded(p.key) + rest);
    ReadItem(data, EndAt(BodyAt(offset, spki), p.algorithm), p.key, rest);
  }

  lemma BodyFrom(data: seq<Byte>, v: nat, limit: nat, first: Tlv, k: nat, slice: Slice)
    requires ReadTlv(data, v) == Some(first) && Skip(data, FieldsStart(first, v), limit, 5) == Some(k)
    requires ReadSpki(data, k, limit) == Some(slice)
    ensures ReadBody(data, v, limit) == Some(slice)
  {
  }

  lemma FirstRead(data: seq<Byte>, v: nat, p: Parts, tail: seq<Byte>) returns (first: Tlv)
    requires SoundParts(p) && Left(data, v, VersionBytes(p) + (EncodedAll(p.fields) + tail))
    ensures ReadTlv(data, v) == Some(first) && FieldsStart(first, v) == v + |VersionBytes(p)|
    ensures Left(data, v + |VersionBytes(p)|, EncodedAll(p.fields) + tail)
  {
    if p.version.Some? {
      ReadItem(data, v, p.version.value, EncodedAll(p.fields) + tail);
    } else {
      assert [] + (EncodedAll(p.fields) + tail) == EncodedAll(p.fields) + tail;
      Regroup(Encoded(p.fields[0]), EncodedAll(p.fields[1..]), tail);
      ReadItem(data, v, p.fields[0], EncodedAll(p.fields[1..]) + tail);
    }
    first := ReadTlv(data, v).value;
  }

  lemma SkipsTo(data: seq<Byte>, f: nat, limit: nat, fields: seq<Item>, tail: seq<Byte>, k: nat)
    requires AllSound(fields) && Left(data, f, EncodedAll(fields) + tail) && k == f + |EncodedAll(fields)| <= limit
    ensures Skip(data, f, limit, |fields|) == Some(k)
  {
    SkipItems(data, f, limit, fields, tail);
  }

  lemma FieldsSkipped(data: seq<Byte>, v: nat, limit: nat, p: Parts, tail: seq<Byte>, k: nat) returns (first: Tlv)
    requires SoundParts(p) && Left(data, v, VersionBytes(p) + (EncodedAll(p.fields) + tail))
    requires k == v + |VersionBytes(p)| + |EncodedAll(p.fields)| <= limit
    ensures ReadTlv(data, v) == Some(first) && Skip(data, FieldsStart(first, v), limit, |p.fields|) == Some(k)
  {
    first := FirstRead(data, v, p, tail);
    var f := FieldsStart(first, v);
    assert Skip(data, f, limit, |p.fields|) == Some(k) by {
      SkipsTo(data, f, limit, p.fields, tail, k);
    }
  }

  lemma KeyLeft(data: seq<Byte>, v: nat, p: Parts, tail: seq<Byte>, k: nat)
    requires SoundParts(p) && Left(data, v, VersionBytes(p) + (EncodedAll(p.fields) + tail))
    requires k == v + |VersionBytes(p)| + |EncodedAll(p.fields)|
    ensures Left(data, k, tail)
  {
    LeftAfter(data, v, VersionBytes(p), EncodedAll(p.fields) + tail);
    LeftAfter(data, v + |VersionBytes(p)|, EncodedAll(p.fields), tail);
  }

  /** The version, the fields and the key info, from v on. */
  lemma BodyRead(data: seq<Byte>, v: nat, limit: nat, p: Parts, rest: seq<Byte>, k: nat)
    requires SoundParts(p) && Sound(SpkiItem(p))
    requires Left(data, v, VersionBytes(p) + (EncodedAll(p.fields) + (Encoded(SpkiItem(p)) + rest)))
    requires k == v + |VersionBytes(p)| + |EncodedAll(p.fields)| && EndAt(k, SpkiItem(p)) <= limit
    ensures ReadBody(data, v, limit) == Some(Slice(k, EndAt(k, SpkiItem(p))))
  {
    var tail := Encoded(SpkiItem(p)) + rest;
    var first := FieldsSkipped(data, v, limit, p, tail, k);
    KeyLeft(data, v, p, tail, k);
    ReadSpkiOf(data, k, limit, p, rest);
    BodyFrom(data, v, limit, first, k, Slice(k, EndAt(k, SpkiItem(p))));
  }

  lemma FindFrom(data: seq<Byte>, cert: Tlv, tbs: Tlv, slice: Slice)
    requires ReadTlv(data, 0) == Some(cert) && cert.tag == SEQUENCE && cert.end == |data|
    requires ReadTlv(data, cert.body) == Some(tbs) && tbs.tag == SEQUENCE
    requires ReadBody(data, tbs.body, tbs.end) == Some(slice)
    ensures FindSpki(data) == Some(slice)
  {
  }

  lemma TbsRead(data: seq<Byte>, t: nat, p: Parts, k: nat)
    requires SoundParts(p) && Sound(SpkiItem(p)) && Sound(TbsItem(p)) && Left(data, t, Encoded(TbsItem(p)) + p.after)
    requires k == BodyAt(t, TbsItem(p)) + |VersionBytes(p)| + |EncodedAll(p.fields)|
    ensures ReadTlv(data, t) == Some(Tlv(SEQUENCE, BodyAt(t, TbsItem(p)), EndAt(t, TbsItem(p))))
    ensures ReadBody(data, BodyAt(t, TbsItem(p)), EndAt(t, TbsItem(p))) == Some(Slice(k, EndAt(k, SpkiItem(p))))
    ensures Left(data, k, Encoded(SpkiItem(p)) + (p.more + p.after))
  {
    var tbs := TbsItem(p);
    ReadItem(data, t, tbs, p.after);
    TbsRest(p);
    EndIs(k, SpkiItem(p));
    BodyRead(data, BodyAt(t, tbs), EndAt(t, tbs), p, p.more + p.after, k);
    KeyLeft(data, BodyAt(t, tbs), p, Encoded(SpkiItem(p)) + (p.more + p.after), k);
  }

  lemma OuterRead(data: seq<Byte>, p: Parts)
    requires Whole(p) && data == Encoded(CertificateItem(p))
    ensures ReadTlv(data, 0) == Some(Tlv(SEQUENCE, BodyAt(0, CertificateItem(p)), |data|))
    ensures Left(data, BodyAt(0, CertificateItem(p)), Encoded(TbsItem(p)) + p.after)
  {
    var cert := CertificateItem(p);
    LeftAll(data);
    ReadItem(data, 0, cert, []);
    LeftAll(cert.content);
    EndIs(0, cert);
  }

  function KeyStart(p: Parts): nat
    requires Whole(p)
  {
    BodyAt(BodyAt(0, CertificateItem(p)), TbsItem(p)) + |VersionBytes(p)| + |EncodedAll(p.fields)|
  }

  lemma FoundAt(data: seq<Byte>, p: Parts)
    requires Whole(p) && ReadTlv(data, 0) == Some(Tlv(SEQUENCE, BodyAt(0, CertificateItem(p)), |data|))
    requires Left(data, BodyAt(0, CertificateItem(p)), Encoded(TbsItem(p)) + p.after)
    ensures FindSpki(data) == Some(Slice(KeyStart(p), EndAt(KeyStart(p), SpkiItem(p))))
    ensures Left(data, KeyStart(p), Encoded(SpkiItem(p)) + (p.more + p.after))
  {
    var t, k := BodyAt(0, CertificateItem(p)), KeyStart(p);
    TbsRead(data, t, p, k);
    FindFrom(data, Tlv(SEQUENCE, t, |data|), Tlv(SEQUENCE, BodyAt(t, TbsItem(p)), EndAt(t, TbsItem(p))),
             Slice(k, EndAt(k, SpkiItem(p))));
  }

  lemma FoundSlice(data: seq<Byte>, p: Parts)
    requires Whole(p) && ReadTlv(data, 0) == Some(Tlv(SEQUENCE, BodyAt(0, CertificateItem(p)), |data|))
    requires Left(data, BodyAt(0, CertificateItem(p)), Encoded(TbsItem(p)) + p.after)
    ensures FindSpki(data).Some? && data[FindSpki(data).value.start..FindSpki(data).value.end] == Encoded(SpkiItem(p))
  {
    var slice := Slice(KeyStart(p), EndAt(KeyStart(p), SpkiItem(p)));
    EndIs(KeyStart(p), SpkiItem(p));
    assert FindSpki(data) == Some(slice) && Left(data, slice.start, Encoded(SpkiItem(p)) + (p.more + p.after)) by {
      FoundAt(data, p);
    }
    SliceIs(data, slice, Encoded(SpkiItem(p)), p.more + p.after);
  }

  lemma SliceIs(data: seq<Byte>, slice: Slice, x: seq<Byte>, rest: seq<Byte>)
    requires Left(data, slice.start, x + rest) && slice.end == slice.start + |x|
    ensures slice.end <= |data| && data[slice.start..slice.end] == x
  {
    LeftAfter(data, slice.start, x, rest);
  }

  /** The reader finds exactly the key info of any assembled certificate. */
  lemma FindsSpki(data: seq<Byte>, p: Parts)
    requires Whole(p) && data == Encoded(CertificateItem(p))
    ensures FindSpki(data).Some?
    ensures data[FindSpki(data).value.start..FindSpki(data).value.end] == Encoded(SpkiItem(p))
  {
    OuterRead(data, p);
    FoundSlice(data, p);
  }

  lemma TbsRest(p: Parts)
    requires SoundParts(p) && Sound(SpkiItem(p))
    ensures TbsItem(p).content + p.after
         == VersionBytes(p) + (EncodedAll(p.fields) + (Encoded(SpkiItem(p)) + (p.more + p.after)))
    ensures |TbsItem(p).content| >= |VersionBytes(p)| + |EncodedAll(p.fields)| + |Encoded(SpkiItem(p))|
  {
    var spki := Encoded(SpkiItem(p));
    Regroup(VersionBytes(p), EncodedAll(p.fields) + (spki + p.more), p.after);
    Regroup(EncodedAll(p.fields), spki + p.more, p.after);
    Regroup(spki, p.more, p.after);
  }

  // ------------------------------------------------------------ what the reader accepts

  lemma SpkiParts(data: seq<Byte>, k: nat, limit: nat) returns (algorithm: Item, key: Item)
    requires ReadSpki(data, k, limit).Some?
    ensures Sound(algorithm) && algorithm.tag == SEQUENCE && Sound(key) && key.tag == BIT_STRING
    ensures ReadTlv(data, k).Some? && Sound(ItemOf(data, k)) && ItemOf(data, k) == Item(SEQUENCE, Encoded(algorithm) + Encoded(key))
    ensures Encoded(ItemOf(data, k)) == data[k..ReadSpki(data, k, limit).value.end]
  {
    var spki := ReadTlv(data, k).value;
    ItemRead(data, k);
    ItemRead(data, spki.body);
    var a := ReadTlv(data, spki.body).value;
    ItemRead(data, a.end);
    algorithm, key := ItemOf(data, spki.body), ItemOf(data, a.end);
    SliceJoin(data, spki.body, a.end, spki.end);
  }

  /** What a certificate body that the reader accepts is made of. */
  lemma BodyParts(data: seq<Byte>, v: nat, limit: nat) returns (p: Parts)
    requires limit <= |data| && ReadBody(data, v, limit).Some?
    ensures SoundParts(p) && Sound(SpkiItem(p)) && p.after == data[limit..]
    ensures TbsItem(p).content == data[v..limit]
    ensures Encoded(SpkiItem(p)) == data[ReadBody(data, v, limit).value.start..ReadBody(data, v, limit).value.end]
  {
    var first := ReadTlv(data, v).value;
    ItemRead(data, v);
    var start := FieldsStart(first, v);
    var k := Skip(data, start, limit, 5).value;
    var fields := ItemsSkipped(data, start, limit, 5);
    var algorithm, key := SpkiParts(data, k, limit);
    var end := ReadSpki(data, k, limit).value.end;
    p := Parts(if first.tag == VERSION then Some(ItemOf(data, v)) else None, fields, algorithm, key, data[end..limit], data[limit..]);
    TbsJoined(data, p, v, start, k, end, limit);
  }

  /** Whatever the reader accepts is an assembled certificate, and what it
      returns is its key info. */
  lemma AcceptsOnlyCertificates(data: seq<Byte>) returns (p: Parts)
    requires FindSpki(data).Some?
    ensures Whole(p) && data == Encoded(CertificateItem(p))
    ensures data[FindSpki(data).value.start..FindSpki(data).value.end] == Encoded(SpkiItem(p))
  {
    var cert := ReadTlv(data, 0).value;
    var tbs := ReadTlv(data, cert.body).value;
    ItemRead(data, 0);
    ItemRead(data, cert.body);
    p := BodyParts(data, tbs.body, tbs.end);
    assert TbsItem(p) == ItemOf(data, cert.body);
    SliceJoin(data, cert.body, tbs.end, |data|);
    assert data[tbs.end..|data|] == data[tbs.end..] && data[0..|data|] == data;
    assert CertificateItem(p) == ItemOf(data, 0);
  }

  lemma TbsJoined(data: seq<Byte>, p: Parts, v: nat, start: nat, k: nat, end: nat, limit: nat)
    requires v <= start <= k <= end <= limit <= |data| && SoundParts(p) && Sound(SpkiItem(p))
    requires VersionBytes(p) == data[v..start] && EncodedAll(p.fields) == data[start..k]
    requires Encoded(SpkiItem(p)) == data[k..end] && p.more == data[end..limit]
    ensures TbsItem(p).content == data[v..limit]
  {
    SliceJoin(data, k, end, limit);
    SliceJoin(data, start, k, limit);
    SliceJoin(data, v, start, limit);
  }
}
