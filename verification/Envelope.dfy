/** The record envelope: a payload as it stands when the record carries no header, and a
    length-prefixed header block in front of it when it does. */
module Envelope {
  import opened Wrappers

  type byte = b: int | 0 <= b < 0x100

  type Bytes = seq<byte>

  const U32 := 0x1_0000_0000

  // ----- Text -----

  predicate Continues(s: Bytes, i: nat) {
    i < |s| && 0x80 <= s[i] <= 0xBF
  }

  /** The length of the well-formed UTF-8 sequence at the front, or 0. */
  function Utf8Front(s: Bytes): (n: nat)
    ensures n <= |s|
  {
    if s == [] then 0
    else if s[0] <= 0x7F then 1
    else if 0xC2 <= s[0] <= 0xDF && Continues(s, 1) then 2
    else if Continues(s, 1) && Continues(s, 2)
            && ((s[0] == 0xE0 && 0xA0 <= s[1]) || (s[0] == 0xED && s[1] <= 0x9F)
                || 0xE1 <= s[0] <= 0xEC || 0xEE <= s[0] <= 0xEF) then 3
    else if Continues(s, 1) && Continues(s, 2) && Continues(s, 3)
            && ((s[0] == 0xF0 && 0x90 <= s[1]) || (s[0] == 0xF4 && s[1] <= 0x8F) || 0xF1 <= s[0] <= 0xF3) then 4
    else 0
  }

  predicate ValidUtf8(s: Bytes)
    decreases |s|
  {
    s == [] || (Utf8Front(s) > 0 && ValidUtf8(s[Utf8Front(s)..]))
  }

  /** A Unicode scalar value: any code point but the surrogates. */
  predicate IsScalar(c: nat) {
    c < 0xD800 || 0xE000 <= c < 0x11_0000
  }

  /** The bytes UTF-8 encodes a scalar value in (section 3 of RFC 3629). */
  function EncodeScalar(c: nat): (s: Bytes)
    requires IsScalar(c)
    ensures 1 <= |s| <= 4
  {
    if c < 0x80 then [c]
    else if c < 0x800 then [0xC0 + c / 0x40, 0x80 + c % 0x40]
    else if c < 0x1_0000 then [0xE0 + c / 0x1000, 0x80 + c / 0x40 % 0x40, 0x80 + c % 0x40]
    else [0xF0 + c / 0x4_0000, 0x80 + c / 0x1000 % 0x40, 0x80 + c / 0x40 % 0x40, 0x80 + c % 0x40]
  }

  ghost predicate AllScalars(cs: seq<nat>) {
    forall i :: 0 <= i < |cs| ==> IsScalar(cs[i])
  }

  ghost function EncodeScalars(cs: seq<nat>): Bytes
    requires AllScalars(cs)
  {
    if cs == [] then [] else EncodeScalar(cs[0]) + EncodeScalars(cs[1..])
  }

  lemma ThreeByteRange(c: nat)
    requires 0x800 <= c < 0x1_0000 && IsScalar(c)
    ensures c / 0x1000 < 0x10
    ensures c / 0x1000 == 0 ==> 0x20 <= c / 0x40 % 0x40
    ensures c / 0x1000 == 0xD ==> c / 0x40 % 0x40 < 0x20
  {
    if c / 0x1000 == 0xD {
      assert 0x340 <= c / 0x40 < 0x360;
    }
  }

  lemma FourByteRange(c: nat)
    requires 0x1_0000 <= c < 0x11_0000
    ensures c / 0x4_0000 < 5
    ensures c / 0x4_0000 == 0 ==> 0x10 <= c / 0x1000 % 0x40
    ensures c / 0x4_0000 == 4 ==> c / 0x1000 % 0x40 < 0x10
  {
    if c / 0x4_0000 == 4 {
      assert 0x100 <= c / 0x1000 < 0x110;
    }
  }

  lemma ScalarIsInFront(c: nat, rest: Bytes)
    requires IsScalar(c)
    ensures Utf8Front(EncodeScalar(c) + rest) == |EncodeScalar(c)|
  {
    if 0x800 <= c < 0x1_0000 {
      ThreeByteRange(c);
    } else if 0x1_0000 <= c {
      FourByteRange(c);
    }
    FrontOf(EncodeScalar(c), rest);
  }

  /** Only the first bytes tell how long the front is. */
  lemma FrontOf(s: Bytes, rest: Bytes)
    ensures Utf8Front(s) > 0 ==> Utf8Front(s + rest) == Utf8Front(s)
  {
  }

  lemma TwoBytes(a: nat, b: nat)
    requires a < 0x20 && b < 0x40
    ensures (a * 0x40 + b) / 0x40 == a && (a * 0x40 + b) % 0x40 == b
  {
  }

  lemma ThreeBytes(a: nat, b: nat, c: nat)
    requires a < 0x10 && b < 0x40 && c < 0x40
    ensures var n := a * 0x1000 + b * 0x40 + c;
            n / 0x1000 == a && n / 0x40 % 0x40 == b && n % 0x40 == c
  {
    var n := a * 0x1000 + b * 0x40 + c;
    assert n / 0x40 == a * 0x40 + b;
  }

  lemma FourBytes(a: nat, b: nat, c: nat, d: nat)
    requires a < 0x8 && b < 0x40 && c < 0x40 && d < 0x40
    ensures var n := a * 0x4_0000 + b * 0x1000 + c * 0x40 + d;
            n / 0x4_0000 == a && n / 0x1000 % 0x40 == b && n / 0x40 % 0x40 == c && n % 0x40 == d
  {
    var n := a * 0x4_0000 + b * 0x1000 + c * 0x40 + d;
    assert n / 0x1000 == a * 0x40 + b;
    assert n / 0x40 == a * 0x1000 + b * 0x40 + c;
  }

  /** The scalar value whose encoding stands in front. */
  lemma FrontIsAScalar(s: Bytes) returns (c: nat)
    requires Utf8Front(s) > 0
    ensures IsScalar(c) && s[..Utf8Front(s)] == EncodeScalar(c)
  {
    var n := Utf8Front(s);
    if n == 1 {
      c := s[0];
    } else if n == 2 {
      c := TwoByteScalar(s[0], s[1]);
    } else if n == 3 {
      c := ThreeByteScalar(s[0], s[1], s[2]);
    } else {
      c := FourByteScalar(s[0], s[1], s[2], s[3]);
    }
  }

  lemma TwoByteScalar(x: byte, y: byte) returns (c: nat)
    requires 0xC2 <= x <= 0xDF && 0x80 <= y <= 0xBF
    ensures IsScalar(c) && EncodeScalar(c) == [x, y]
  {
    var a: nat, b: nat := x as int - 0xC0, y as int - 0x80;
    TwoBytes(a, b);
    c := a * 0x40 + b;
  }

  lemma ThreeByteScalar(x: byte, y: byte, z: byte) returns (c: nat)
    requires 0xE0 <= x <= 0xEF && 0x80 <= y <= 0xBF && 0x80 <= z <= 0xBF
    requires (x == 0xE0 ==> 0xA0 <= y) && (x == 0xED ==> y <= 0x9F)
    ensures IsScalar(c) && EncodeScalar(c) == [x, y, z]
  {
    var a: nat, b: nat, d: nat := x as int - 0xE0, y as int - 0x80, z as int - 0x80;
    ThreeBytes(a, b, d);
    c := a * 0x1000 + b * 0x40 + d;
  }

  lemma FourByteScalar(w: byte, x: byte, y: byte, z: byte) returns (c: nat)
    requires 0xF0 <= w <= 0xF4 && 0x80 <= x <= 0xBF && 0x80 <= y <= 0xBF && 0x80 <= z <= 0xBF
    requires (w == 0xF0 ==> 0x90 <= x) && (w == 0xF4 ==> x <= 0x8F)
    ensures IsScalar(c) && EncodeScalar(c) == [w, x, y, z]
  {
    var a: nat, b: nat, d: nat, e: nat := w as int - 0xF0, x as int - 0x80, y as int - 0x80, z as int - 0x80;
    FourBytes(a, b, d, e);
    c := a * 0x4_0000 + b * 0x1000 + d * 0x40 + e;
  }

  lemma {:induction false} EncodedIsValid(cs: seq<nat>)
    requires AllScalars(cs)
    ensures ValidUtf8(EncodeScalars(cs))
  {
    if cs != [] {
      EncodedIsValid(cs[1..]);
      ScalarIsInFront(cs[0], EncodeScalars(cs[1..]));
      assert EncodeScalars(cs)[|EncodeScalar(cs[0])|..] == EncodeScalars(cs[1..]);
    }
  }

  lemma {:induction false} ValidIsEncoded(s: Bytes) returns (cs: seq<nat>)
    requires ValidUtf8(s)
    ensures AllScalars(cs) && EncodeScalars(cs) == s
    decreases |s|
  {
    cs := [];
    if s != [] {
      var c := FrontIsAScalar(s);
      var rest := ValidIsEncoded(s[Utf8Front(s)..]);
      cs := [c] + rest;
      assert cs[1..] == rest;
      assert s == s[..Utf8Front(s)] + s[Utf8Front(s)..];
    }
  }

  /** A header's name is text: bytes are accepted as one if and only if they are the UTF-8 of some
      sequence of scalar values. */
  lemma ValidMeansUtf8(s: Bytes)
    ensures ValidUtf8(s) <==> exists cs :: AllScalars(cs) && EncodeScalars(cs) == s
  {
    if ValidUtf8(s) {
      var cs := ValidIsEncoded(s);
    }
    if cs :| AllScalars(cs) && EncodeScalars(cs) == s {
      EncodedIsValid(cs);
    }
  }

  type Text = s: Bytes | ValidUtf8(s) witness []

  // ----- Length prefixes -----

  /** A length as the envelope writes it; one past 32 bits writes zero. */
  function FieldLen(n: nat): (b: Bytes)
    ensures |b| == 4
  {
    if n < U32 then [n / 0x100_0000, n / 0x1_0000 % 0x100, n / 0x100 % 0x100, n % 0x100] else [0, 0, 0, 0]
  }

  function FromBigEndian(b: Bytes): (n: nat)
    requires |b| == 4
    ensures n < U32
  {
    b[0] as int * 0x100_0000 + b[1] as int * 0x1_0000 + b[2] as int * 0x100 + b[3] as int
  }

  lemma LengthReadsBack(n: nat)
    ensures FromBigEndian(FieldLen(n)) == if n < U32 then n else 0
  {
    if n < U32 {
      var a := n / 0x100;
      var b := a / 0x100;
      assert n / 0x1_0000 == b && n / 0x100_0000 == b / 0x100;
      assert n == a * 0x100 + n % 0x100 && a == b * 0x100 + a % 0x100 && b == b / 0x100 * 0x100 + b % 0x100;
    }
  }

  lemma LengthWritesBack(b: Bytes)
    requires |b| == 4
    ensures FieldLen(FromBigEndian(b)) == b
  {
    var n := FromBigEndian(b);
    assert n / 0x100_0000 == b[0];
    assert n / 0x1_0000 == b[0] as int * 0x100 + b[1] as int;
    assert n / 0x100 == b[0] as int * 0x1_0000 + b[1] as int * 0x100 + b[2] as int;
  }

  function ReadLen(data: Bytes): Option<(nat, Bytes)> {
    if |data| < 4 then None else Some((FromBigEndian(data[..4]), data[4..]))
  }

  function ReadField(data: Bytes): (r: Option<(Bytes, Bytes)>)
    ensures r.Some? ==> |r.value.0| + |r.value.1| + 4 == |data|
  {
    match ReadLen(data)
    case None => None
    case Some((len, rest)) => if len <= |rest| then Some((rest[..len], rest[len..])) else None
  }

  // ----- Headers -----

  datatype Header = Header(name: Text, value: Bytes)

  function ReadHeader(block: Bytes): (r: Option<(Header, Bytes)>)
    ensures r.Some? ==> |r.value.1| < |block|
  {
    match ReadField(block)
    case None => None
    case Some((name, rest)) =>
      match ReadField(rest)
      case None => None
      case Some((value, rest)) => if ValidUtf8(name) then Some((Header(name, value), rest)) else None
  }

  /** Whether a header block parses whole. */
  predicate Parses(block: Bytes)
    decreases |block|
  {
    block == [] || (ReadHeader(block).Some? && Parses(ReadHeader(block).value.1))
  }

  /** The headers read off the front of a block, up to where one does not read. */
  function Fields(block: Bytes): seq<Header>
    decreases |block|
  {
    match ReadHeader(block)
    case None => []
    case Some((header, rest)) => [header] + Fields(rest)
  }

  /** What is left of the block there. */
  function Unread(block: Bytes): Bytes
    decreases |block|
  {
    match ReadHeader(block)
    case None => block
    case Some((_, rest)) => Unread(rest)
  }

  function EncodeHeader(h: Header): Bytes {
    FieldLen(|h.name|) + h.name + FieldLen(|h.value|) + h.value
  }

  function Encode(headers: seq<Header>): Bytes {
    if headers == [] then [] else EncodeHeader(headers[0]) + Encode(headers[1..])
  }

  /** The block length as the writer sums it before it writes anything. */
  function BlockLen(headers: seq<Header>): nat {
    if headers == [] then 0 else 8 + |headers[0].name| + |headers[0].value| + BlockLen(headers[1..])
  }

  lemma {:induction false} EncodeHasBlockLen(headers: seq<Header>)
    ensures |Encode(headers)| == BlockLen(headers)
    ensures BlockLen(headers) == 0 <==> headers == []
  {
    if headers != [] {
      EncodeHasBlockLen(headers[1..]);
    }
  }

  lemma FieldReadsBack(field: Bytes, rest: Bytes)
    requires |field| < U32
    ensures ReadField(FieldLen(|field|) + field + rest) == Some((field, rest))
  {
    var data := FieldLen(|field|) + field + rest;
    LengthReadsBack(|field|);
    assert data[..4] == FieldLen(|field|);
    assert data[4..] == field + rest;
    assert (field + rest)[..|field|] == field;
    assert (field + rest)[|field|..] == rest;
  }

  lemma HeaderReadsBack(h: Header, rest: Bytes)
    requires |h.name| < U32 && |h.value| < U32
    ensures ReadHeader(EncodeHeader(h) + rest) == Some((h, rest))
  {
    var tail := FieldLen(|h.value|) + h.value + rest;
    assert EncodeHeader(h) + rest == FieldLen(|h.name|) + h.name + tail;
    FieldReadsBack(h.name, tail);
    FieldReadsBack(h.value, rest);
  }

  /** A block written under 4 GiB reads back as the headers it was written from. */
  lemma {:induction false} BlockReadsBack(headers: seq<Header>)
    requires BlockLen(headers) < U32
    ensures Parses(Encode(headers)) && Fields(Encode(headers)) == headers
  {
    if headers != [] {
      var rest := Encode(headers[1..]);
      BlockReadsBack(headers[1..]);
      HeaderReadsBack(headers[0], rest);
      EncodeHasBlockLen(headers);
      assert Encode(headers) == EncodeHeader(headers[0]) + rest;
      assert headers == [headers[0]] + headers[1..];
    } else {
      assert ReadHeader([]).None?;
    }
  }

  lemma FieldWritesBack(data: Bytes)
    requires ReadField(data).Some?
    ensures FieldLen(|ReadField(data).value.0|) + ReadField(data).value.0 + ReadField(data).value.1 == data
  {
    LengthWritesBack(data[..4]);
    assert data == data[..4] + data[4..];
  }

  lemma HeaderWritesBack(block: Bytes)
    requires ReadHeader(block).Some?
    ensures EncodeHeader(ReadHeader(block).value.0) + ReadHeader(block).value.1 == block
  {
    var (name, afterName) := ReadField(block).value;
    var (value, rest) := ReadField(afterName).value;
    FieldWritesBack(block);
    FieldWritesBack(afterName);
    GroupFour(FieldLen(|name|), name, FieldLen(|value|), value, rest);
    assert ReadHeader(block).value == (Header(name, value), rest);
  }

  lemma GroupFour(a: Bytes, b: Bytes, c: Bytes, d: Bytes, rest: Bytes)
    ensures a + b + c + d + rest == a + b + (c + d + rest)
  {
  }

  /** On every byte string: writing the headers a block decodes to reproduces what was decoded, byte
      for byte, and the parser accepts a block exactly when decoding leaves nothing of it. */
  lemma {:induction false} BlockWritesBack(block: Bytes)
    ensures block == Encode(Fields(block)) + Unread(block)
    ensures Parses(block) <==> Unread(block) == []
    decreases |block|
  {
    if ReadHeader(block).Some? {
      var h, rest := ReadHeader(block).value.0, ReadHeader(block).value.1;
      HeaderWritesBack(block);
      BlockWritesBack(rest);
      assert ([h] + Fields(rest))[1..] == Fields(rest);
      assert block == EncodeHeader(h) + (Encode(Fields(rest)) + Unread(rest));
    }
  }

  /** Canonical form: an accepted block is the one encoding of its headers. */
  lemma AcceptedBlockIsCanonical(block: Bytes)
    ensures Parses(block) <==> Encode(Fields(block)) == block
  {
    BlockWritesBack(block);
    assert |block| == |Encode(Fields(block))| + |Unread(block)|;
  }

  // ----- Records -----

  const MAGIC: Bytes := [0x52, 0x53, 0x4B, 0x32]      // RSK2
  const TEXT_MAGIC: Bytes := [0x52, 0x53, 0x4B, 0x31] // RSK1, written by earlier releases
  const PREFIX := 8

  datatype Block = Binary(block: Bytes) | Plain(block: Bytes)

  function Split(record: Bytes): (r: Option<(Block, nat)>)
    ensures r.Some? ==> PREFIX <= r.value.1 <= |record|
  {
    if |record| < 4 then None
    else
      match ReadLen(record[4..])
      case None => None
      case Some((len, rest)) =>
        if len > |rest| then None
        else if record[..4] == MAGIC then
          if Parses(rest[..len]) then Some((Binary(rest[..len]), PREFIX + len)) else None
        else if record[..4] == TEXT_MAGIC then Some((Plain(rest[..len]), PREFIX + len))
        else None
  }

  predicate LooksEnveloped(payload: Bytes) {
    |payload| >= 4 && (payload[..4] == MAGIC || payload[..4] == TEXT_MAGIC)
  }

  /** Where a record's payload is. */
  datatype Body = Whole | Within(from: nat, to: nat) | Decoded(bytes: Bytes)

  /** A range that does not fit the record is the whole record. */
  function Fit(body: Body, length: nat): Body {
    if body.Within? && (body.from > body.to || body.to > length) then Whole else body
  }

  function Payload(body: Body, record: Bytes): Bytes {
    match body
    case Whole => record
    case Within(from, to) => if from <= to <= |record| then record[from..to] else record
    case Decoded(bytes) => bytes
  }

  /** Whatever range an envelope answers, settled against the record it names a part of it. */
  lemma FittedPayloadIsInTheRecord(body: Body, record: Bytes)
    requires !body.Decoded?
    ensures var fitted := Fit(body, |record|);
            && (fitted.Within? ==>
                  fitted.from <= fitted.to <= |record| && Payload(fitted, record) == record[fitted.from..fitted.to])
            && (fitted.Whole? ==> Payload(fitted, record) == record)
  {
  }

  function BodyOf(record: Bytes): Body {
    match Split(record)
    case None => Whole
    case Some((_, start)) => Within(start, |record|)
  }

  /** The record of a payload and the headers an envelope writes. */
  function Sealed(headers: seq<Header>, payload: Bytes): Bytes {
    if BlockLen(headers) == 0 && !LooksEnveloped(payload) then payload
    else MAGIC + FieldLen(BlockLen(headers)) + Encode(headers) + payload
  }

  /** The binary headers of a record, in the order they were written. */
  function HeadersOf(record: Bytes): seq<Header> {
    match Split(record)
    case Some((Binary(block), _)) => Fields(block)
    case _ => []
  }

  function PayloadOf(record: Bytes): Bytes {
    Payload(Fit(BodyOf(record), |record|), record)
  }

  lemma FourParts(magic: Bytes, length: Bytes, block: Bytes, payload: Bytes)
    requires |magic| == 4 && |length| == 4
    ensures var record := magic + length + block + payload;
            && record[..4] == magic && record[4..][..4] == length
            && record[4..][4..][..|block|] == block && record[PREFIX + |block|..] == payload
            && |record| == PREFIX + |block| + |payload|
  {
  }

  lemma EnvelopeSplits(length: Bytes, block: Bytes, payload: Bytes)
    requires |length| == 4 && FromBigEndian(length) == |block| && Parses(block)
    ensures var record := MAGIC + length + block + payload;
            && Split(record) == Some((Binary(block), PREFIX + |block|))
            && PayloadOf(record) == payload && HeadersOf(record) == Fields(block)
  {
    FourParts(MAGIC, length, block, payload);
  }

  /** Every byte string opens: as somebody else's payload handed over whole, or as a block and the
      payload after it, which the writer would write as that very string. */
  lemma EveryRecordOpens(record: Bytes)
    ensures Fit(BodyOf(record), |record|) == BodyOf(record)
    ensures Split(record).None? ==> PayloadOf(record) == record && HeadersOf(record) == []
    ensures Split(record).Some? && Split(record).value.0.Binary? ==>
              record == MAGIC + FieldLen(BlockLen(HeadersOf(record))) + Encode(HeadersOf(record)) + PayloadOf(record)
  {
    if Split(record).Some? && Split(record).value.0.Binary? {
      var (length, rest) := ReadLen(record[4..]).value;
      var block := rest[..length];
      AcceptedBlockIsCanonical(block);
      EncodeHasBlockLen(Fields(block));
      PrefixWritesBack(record);
      PartsMakeTheRecord(record, length);
    }
  }

  lemma PrefixWritesBack(record: Bytes)
    requires |record| >= PREFIX
    ensures FieldLen(FromBigEndian(record[4..][..4])) == record[4..][..4]
  {
    LengthWritesBack(record[4..][..4]);
  }

  lemma PartsMakeTheRecord(record: Bytes, n: nat)
    requires PREFIX + n <= |record|
    ensures record == record[..4] + record[4..][..4] + record[4..][4..][..n] + record[PREFIX + n..]
  {
  }

  /** Round trip, and exactly when: opening a sealed record gives back the headers and the payload
      if and only if the header block is under 4 GiB, look-alike payloads included. */
  lemma SealedRecordOpens(headers: seq<Header>, payload: Bytes)
    ensures BlockLen(headers) < U32
            <==> HeadersOf(Sealed(headers, payload)) == headers && PayloadOf(Sealed(headers, payload)) == payload
  {
    var record := Sealed(headers, payload);
    EncodeHasBlockLen(headers);
    if BlockLen(headers) == 0 && !LooksEnveloped(payload) {
      assert Split(record).None?;
    } else if BlockLen(headers) < U32 {
      BlockReadsBack(headers);
      LengthReadsBack(BlockLen(headers));
      EnvelopeSplits(FieldLen(BlockLen(headers)), Encode(headers), payload);
    } else {
      LengthReadsBack(BlockLen(headers));
      assert record == MAGIC + FieldLen(BlockLen(headers)) + [] + (Encode(headers) + payload);
      EnvelopeSplits(FieldLen(BlockLen(headers)), [], Encode(headers) + payload);
      assert |PayloadOf(record)| > |payload|;
    }
  }

  /** The layout others read: the four letters, the block's length and each length prefix in network
      order, and the payload last; a payload that needs no envelope stands alone. */
  lemma WireFormat(headers: seq<Header>, payload: Bytes)
    requires BlockLen(headers) < U32
    ensures var record := Sealed(headers, payload);
            if headers == [] && !HasMagic(payload) then record == payload
            else
              && |record| == 8 + BlockLen(headers) + |payload|
              && record[0] == 0x52 && record[1] == 0x53 && record[2] == 0x4B && record[3] == 0x32
              && ReadsAs(record, 4, BlockLen(headers))
              && record[8 + BlockLen(headers)..] == payload
              && (headers != [] ==> StartsWith(record, 8, headers[0]))
  {
    EncodeHasBlockLen(headers);
    MagicIsSeen(payload);
    if headers != [] || HasMagic(payload) {
      var length := FieldLen(BlockLen(headers));
      var record := MAGIC + length + Encode(headers) + payload;
      assert record == Sealed(headers, payload);
      FourParts(MAGIC, length, Encode(headers), payload);
      assert record[4..8] == record[4..][..4] == length;
      LengthStands(record, 4, BlockLen(headers));
      assert record[0] == record[..4][0] && record[1] == record[..4][1];
      assert record[2] == record[..4][2] && record[3] == record[..4][3];
      if headers != [] {
        FirstHeaderStands(MAGIC + length, headers, payload);
      }
    }
  }

  /** Begins with the letters of one of the two envelopes. */
  predicate HasMagic(payload: Bytes) {
    && |payload| >= 4 && payload[0] == 0x52 && payload[1] == 0x53 && payload[2] == 0x4B
    && (payload[3] == 0x31 || payload[3] == 0x32)
  }

  lemma MagicIsSeen(payload: Bytes)
    ensures LooksEnveloped(payload) == HasMagic(payload)
  {
    if |payload| >= 4 {
      assert payload[..4] == [payload[0], payload[1], payload[2], payload[3]];
      assert MAGIC[3] == 0x32 && TEXT_MAGIC[3] == 0x31;
    }
  }

  lemma FirstHeaderStands(front: Bytes, headers: seq<Header>, payload: Bytes)
    requires |front| == 8 && headers != [] && BlockLen(headers) < U32
    ensures StartsWith(front + Encode(headers) + payload, 8, headers[0])
  {
    var h, rest := headers[0], Encode(headers[1..]);
    PartsStand(front, h, rest + payload);
    Regroup(front, FieldLen(|h.name|), h.name, FieldLen(|h.value|), h.value, rest, payload);
  }

  lemma Regroup(front: Bytes, a: Bytes, b: Bytes, c: Bytes, d: Bytes, rest: Bytes, payload: Bytes)
    ensures front + (a + b + c + d + rest) + payload == front + a + b + c + d + (rest + payload)
  {
  }

  /** Four bytes at `at`, the most significant first. */
  predicate ReadsAs(record: Bytes, at: nat, n: nat) {
    && at + 4 <= |record|
    && record[at] as int * 0x100_0000 + record[at + 1] as int * 0x1_0000 + record[at + 2] as int * 0x100
       + record[at + 3] as int == n
  }

  /** A header at `at`: its name's length and its name, its value's length and its value. */
  predicate StartsWith(record: Bytes, at: nat, h: Header) {
    var value := at + 4 + |h.name|;
    && value + 4 + |h.value| <= |record|
    && ReadsAs(record, at, |h.name|) && record[at + 4..value] == h.name
    && ReadsAs(record, value, |h.value|) && record[value + 4..value + 4 + |h.value|] == h.value
  }

  lemma PartsStand(front: Bytes, h: Header, tail: Bytes)
    requires |front| == 8 && |h.name| < U32 && |h.value| < U32
    ensures StartsWith(front + FieldLen(|h.name|) + h.name + FieldLen(|h.value|) + h.value + tail, 8, h)
  {
    var a, b := FieldLen(|h.name|), FieldLen(|h.value|);
    var record := front + a + h.name + b + h.value + tail;
    var value := 12 + |h.name|;
    SixParts(front, a, h.name, b, h.value, tail);
    LengthStands(record, 8, |h.name|);
    LengthStands(record, value, |h.value|);
  }

  lemma SixParts(front: Bytes, a: Bytes, name: Bytes, b: Bytes, value: Bytes, tail: Bytes)
    requires |front| == 8 && |a| == 4 && |b| == 4
    ensures var record, at := front + a + name + b + value + tail, 12 + |name|;
            && |record| == at + 4 + |value| + |tail|
            && record[8..12] == a && record[12..at] == name
            && record[at..at + 4] == b && record[at + 4..at + 4 + |value|] == value
  {
  }

  lemma LengthStands(record: Bytes, at: nat, n: nat)
    requires n < U32 && at + 4 <= |record| && record[at..at + 4] == FieldLen(n)
    ensures ReadsAs(record, at, n)
  {
    LengthReadsBack(n);
    var b := record[at..at + 4];
    assert b[0] == record[at] && b[1] == record[at + 1] && b[2] == record[at + 2] && b[3] == record[at + 3];
  }

  /** No two publishes seal to the same bytes. */
  lemma SealIsInjective(headers: seq<Header>, payload: Bytes, headers': seq<Header>, payload': Bytes)
    requires BlockLen(headers) < U32 && BlockLen(headers') < U32
    requires Sealed(headers, payload) == Sealed(headers', payload')
    ensures headers == headers' && payload == payload'
  {
    SealedRecordOpens(headers, payload);
    SealedRecordOpens(headers', payload');
  }

  // ----- The loops -----

  /** The writer: sums the block first, then extends the buffer header by header. */
  method Seal(headers: seq<Header>, payload: Bytes) returns (record: Bytes)
    ensures record == Sealed(headers, payload)
  {
    var block := 0;
    for i := 0 to |headers|
      invariant block + BlockLen(headers[i..]) == BlockLen(headers)
    {
      block := block + 2 * 4 + |headers[i].name| + |headers[i].value|;
    }
    if block == 0 && !LooksEnveloped(payload) {
      return payload;
    }
    record := MAGIC + FieldLen(block);
    ghost var front := record;
    for i := 0 to |headers|
      invariant record + Encode(headers[i..]) == front + Encode(headers)
    {
      EncodeNext(record, headers, i);
      record := record + FieldLen(|headers[i].name|);
      record := record + headers[i].name;
      record := record + FieldLen(|headers[i].value|);
      record := record + headers[i].value;
    }
    assert record + [] == record;
    record := record + payload;
  }

  lemma EncodeNext(record: Bytes, headers: seq<Header>, i: nat)
    requires i < |headers|
    ensures record + Encode(headers[i..])
            == record + FieldLen(|headers[i].name|) + headers[i].name + FieldLen(|headers[i].value|)
               + headers[i].value + Encode(headers[i + 1..])
  {
  }

  /** The parser's walk over a shrinking block. */
  method FieldsParse(bytes: Bytes) returns (parses: bool)
    ensures parses == Parses(bytes)
  {
    var block := bytes;
    while block != []
      invariant Parses(bytes) == Parses(block)
      decreases |block|
    {
      match ReadHeader(block) {
        case None => return false;
        case Some((_, rest)) => block := rest;
      }
    }
    return true;
  }

  type HeaderMap = map<Bytes, Bytes>

  /** Inserting a list of headers in order: a later value of a name wins. */
  function Inserted(into: HeaderMap, headers: seq<Header>): HeaderMap
    decreases headers
  {
    if headers == [] then into else Inserted(into[headers[0].name := headers[0].value], headers[1..])
  }

  /** The reader of an accepted block: inserts each header into the map it is given. */
  method DecodeFields(bytes: Bytes, into: HeaderMap) returns (headers: HeaderMap)
    ensures headers == Inserted(into, Fields(bytes))
  {
    var block := bytes;
    headers := into;
    while ReadHeader(block).Some?
      invariant Inserted(headers, Fields(block)) == Inserted(into, Fields(bytes))
      decreases |block|
    {
      var (h, rest) := ReadHeader(block).value;
      assert ([h] + Fields(rest))[1..] == Fields(rest);
      headers := headers[h.name := h.value];
      block := rest;
    }
  }

  predicate Distinct(headers: seq<Header>) {
    forall i, j :: 0 <= i < j < |headers| ==> headers[i].name != headers[j].name
  }

  /** A name that no header carries keeps what the map had. */
  lemma {:induction false} InsertedElsewhere(into: HeaderMap, headers: seq<Header>, name: Bytes)
    requires forall i :: 0 <= i < |headers| ==> headers[i].name != name
    ensures name in Inserted(into, headers) <==> name in into
    ensures name in into ==> Inserted(into, headers)[name] == into[name]
    decreases headers
  {
    if headers != [] {
      InsertedElsewhere(into[headers[0].name := headers[0].value], headers[1..], name);
    }
  }

  /** Headers of distinct names are all in the map, each with its own value. */
  lemma {:induction false} InsertedHasEach(into: HeaderMap, headers: seq<Header>, i: nat)
    requires Distinct(headers) && i < |headers|
    ensures headers[i].name in Inserted(into, headers)
    ensures Inserted(into, headers)[headers[i].name] == headers[i].value
    decreases headers
  {
    var next := into[headers[0].name := headers[0].value];
    if i == 0 {
      InsertedElsewhere(next, headers[1..], headers[0].name);
    } else {
      InsertedHasEach(next, headers[1..], i - 1);
    }
  }
}
