/** A message from its publish to its delivery: the partition key is chosen, the other headers and
    the payload are sealed into the record, and a delivery reads both back. */
module Delivery {
  import opened Wrappers
  import opened Decimal
  import opened Envelope

  function Ascii(s: string): (b: Bytes)
    requires forall i :: 0 <= i < |s| ==> s[i] < 128 as char
    ensures |b| == |s| && forall i :: 0 <= i < |s| ==> b[i] == s[i] as int
  {
    seq(|s|, i requires 0 <= i < |s| => s[i] as int)
  }

  const PARTITION_KEY: Bytes := Ascii("partition-key")
  const SEQUENCE: Bytes := Ascii("kinesis-sequence-number")
  const SHARD: Bytes := Ascii("kinesis-shard-id")

  /** The headers a record carries in fields of its own. */
  predicate Native(name: Bytes) {
    name == PARTITION_KEY || name == SEQUENCE || name == SHARD
  }

  /** The headers of a publish that an envelope writes, in the order the map gives them. */
  function Carried(headers: seq<Header>): seq<Header> {
    if headers == [] then []
    else (if Native(headers[0].name) then [] else [headers[0]]) + Carried(headers[1..])
  }

  lemma {:induction false} CarriedKeepsTheRest(headers: seq<Header>)
    requires Distinct(headers)
    ensures Distinct(Carried(headers))
    ensures forall h :: h in Carried(headers) <==>
              h in headers && h.name != PARTITION_KEY && h.name != SEQUENCE && h.name != SHARD
  {
    if headers != [] {
      CarriedKeepsTheRest(headers[1..]);
      assert headers == [headers[0]] + headers[1..];
      forall j | 0 <= j < |Carried(headers[1..])|
        ensures Carried(headers[1..])[j].name != headers[0].name
      {
        assert Carried(headers[1..])[j] in headers[1..];
      }
    }
  }

  // ----- Choosing the key -----

  /** A key no other publish of the process is given. */
  function SpreadKey(process: nat, count: nat): (key: string)
    ensures forall i :: 0 <= i < |key| ==> key[i] < 128 as char
  {
    "rs-" + Unpadded(process) + "-" + Unpadded(count)
  }

  lemma SpreadKeysDiffer(process: nat, a: nat, b: nat)
    requires SpreadKey(process, a) == SpreadKey(process, b)
    ensures a == b
  {
    var front := "rs-" + Unpadded(process) + "-";
    assert SpreadKey(process, a)[|front|..] == Unpadded(a);
    assert SpreadKey(process, b)[|front|..] == Unpadded(b);
    UnpaddedReadsBack(a);
    UnpaddedReadsBack(b);
  }

  /** The header a call site wrote by hand, if the map has it. */
  function HeaderNamed(headers: seq<Header>, name: Bytes): (value: Option<Bytes>)
    ensures value.None? <==> forall i :: 0 <= i < |headers| ==> headers[i].name != name
    ensures value.Some? ==> exists i :: 0 <= i < |headers| && headers[i].name == name && headers[i].value == value.value
    ensures Distinct(headers) ==> forall h :: h in headers && h.name == name ==> value == Some(h.value)
  {
    if headers == [] then None
    else if headers[0].name == name then Some(headers[0].value)
    else HeaderNamed(headers[1..], name)
  }

  /** The key the call, the header or the policy names; `lossy` reads bytes as text. */
  function NamedKey(options: Option<Bytes>, headers: seq<Header>, policy: Option<Bytes>,
                    lossy: Bytes -> Bytes): Option<Bytes>
  {
    if options.Some? then options
    else
      match HeaderNamed(headers, PARTITION_KEY)
      case Some(value) => Some(lossy(value))
      case None => policy
  }

  /** The counter behind the fallback key, shared by the whole process; it wraps at 64 bits. */
  class KeySpreader {
    var next: nat
    const process: nat

    constructor (process: nat)
      ensures next == 0 && this.process == process
    {
      next := 0;
      this.process := process;
    }

    method Spread() returns (key: string)
      modifies this
      ensures key == SpreadKey(process, old(next))
      ensures next == (old(next) + 1) % 0x1_0000_0000_0000_0000
    {
      key := SpreadKey(process, next);
      next := (next + 1) % 0x1_0000_0000_0000_0000;
    }

    /** The call first, then the header, then the policy, and a spread key only without all three. */
    method ResolvePartitionKey(options: Option<Bytes>, headers: seq<Header>, policy: Option<Bytes>,
                               lossy: Bytes -> Bytes) returns (key: Bytes)
      modifies this
      ensures NamedKey(options, headers, policy, lossy).Some? ==>
                key == NamedKey(options, headers, policy, lossy).value && next == old(next)
      ensures options.Some? ==> key == options.value && next == old(next)
      ensures options.None? && Distinct(headers) ==>
                forall h :: h in headers && h.name == PARTITION_KEY ==> key == lossy(h.value) && next == old(next)
      ensures options.None? && (forall h :: h in headers ==> h.name != PARTITION_KEY) ==>
                if policy.Some? then key == policy.value && next == old(next)
                else key == Ascii(SpreadKey(process, old(next)))
      ensures NamedKey(options, headers, policy, lossy).None? ==>
                && key == Ascii(SpreadKey(process, old(next)))
                && next == (old(next) + 1) % 0x1_0000_0000_0000_0000
    {
      if options.Some? {
        return options.value;
      }
      var named := HeaderNamed(headers, PARTITION_KEY);
      if named.Some? {
        return lossy(named.value);
      }
      if policy.Some? {
        return policy.value;
      }
      var spread := Spread();
      key := Ascii(spread);
    }

    /** What a publish puts on the stream: the key, and the other headers sealed with the payload. */
    method Publish(options: Option<Bytes>, headers: seq<Header>, payload: Bytes, policy: Option<Bytes>,
                   lossy: Bytes -> Bytes) returns (key: Bytes, data: Bytes)
      modifies this
      ensures NamedKey(options, headers, policy, lossy).Some? ==>
                key == NamedKey(options, headers, policy, lossy).value
      ensures NamedKey(options, headers, policy, lossy).None? ==>
                key == Ascii(SpreadKey(process, old(next)))
      ensures options.Some? ==> key == options.value
      ensures options.None? && Distinct(headers) ==>
                forall h :: h in headers && h.name == PARTITION_KEY ==> key == lossy(h.value)
      ensures options.None? && (forall h :: h in headers ==> h.name != PARTITION_KEY) ==>
                key == if policy.Some? then policy.value else Ascii(SpreadKey(process, old(next)))
      ensures forall sequence, shard ::
                Record(data, key, sequence, shard) == Published(headers, payload, key, sequence, shard)
    {
      key := ResolvePartitionKey(options, headers, policy, lossy);
      data := Seal(Carried(headers), payload);
    }
  }

  // ----- Delivering -----

  /** A record as the service returns it: its data blob, and the three fields of its own. */
  datatype Record = Record(data: Bytes, key: Bytes, sequence: Bytes, shard: Bytes)

  /** The record one publish puts. */
  function Published(headers: seq<Header>, payload: Bytes, key: Bytes, sequence: Bytes, shard: Bytes): Record {
    Record(Sealed(Carried(headers), payload), key, sequence, shard)
  }

  /** The headers a record's envelope carries; `text` reads the header block earlier releases wrote. */
  function Enveloped(data: Bytes, text: Bytes -> HeaderMap): HeaderMap {
    match Split(data)
    case Some((Binary(block), _)) => Inserted(map[], Fields(block))
    case Some((Plain(block), _)) => text(block)
    case None => map[]
  }

  /** A delivery's headers: the envelope's, then the native three, which win. */
  function DeliveredHeaders(record: Record, text: Bytes -> HeaderMap): HeaderMap {
    WithNative(Enveloped(record.data, text), record.key, record.sequence, record.shard)
  }

  function WithNative(headers: HeaderMap, key: Bytes, sequence: Bytes, shard: Bytes): HeaderMap {
    headers[PARTITION_KEY := key][SEQUENCE := sequence][SHARD := shard]
  }

  /** `delivered` has every header of `headers` that is not native, and no further such name. */
  ghost predicate Delivers(delivered: HeaderMap, headers: seq<Header>) {
    && (forall h :: h in headers && !Native(h.name) ==> h.name in delivered && delivered[h.name] == h.value)
    && (forall name :: name in delivered && !Native(name) ==> exists h :: h in headers && h.name == name)
  }

  function DeliveredPayload(record: Record): Bytes {
    PayloadOf(record.data)
  }

  /** Whatever a record's block contains, its own three fields are what a delivery reports. */
  lemma NativeHeadersWin(record: Record, text: Bytes -> HeaderMap)
    ensures var delivered := DeliveredHeaders(record, text);
            && PARTITION_KEY in delivered && delivered[PARTITION_KEY] == record.key
            && SEQUENCE in delivered && delivered[SEQUENCE] == record.sequence
            && SHARD in delivered && delivered[SHARD] == record.shard
  {
  }

  /** A publish arrives whole: the payload is the published one, and the delivered headers are
      exactly the published ones that are not native, each with its value, and the native three,
      with the key the publish chose. It does so for every publish whose header block is under
      4 GiB, and for no other. */
  lemma PublishedMessageArrives(headers: seq<Header>, payload: Bytes, key: Bytes, sequence: Bytes, shard: Bytes,
                                text: Bytes -> HeaderMap)
    requires Distinct(headers)
    ensures BlockLen(Carried(headers)) < U32 ==>
              var record := Published(headers, payload, key, sequence, shard);
              var delivered := DeliveredHeaders(record, text);
              && DeliveredPayload(record) == payload
              && Delivers(delivered, headers)
              && delivered[PARTITION_KEY] == key
    ensures BlockLen(Carried(headers)) >= U32 ==>
              DeliveredPayload(Published(headers, payload, key, sequence, shard)) != payload
              || HeadersOf(Published(headers, payload, key, sequence, shard).data) != Carried(headers)
  {
    SealedRecordOpens(Carried(headers), payload);
    if BlockLen(Carried(headers)) < U32 {
      CarriedKeepsTheRest(headers);
      EnvelopeArrives(Carried(headers), payload, text);
      HeadersArrive(headers, key, sequence, shard);
      NativeHeadersWin(Published(headers, payload, key, sequence, shard), text);
    }
  }

  lemma HeadersArrive(headers: seq<Header>, key: Bytes, sequence: Bytes, shard: Bytes)
    requires Distinct(headers)
    ensures Delivers(WithNative(Inserted(map[], Carried(headers)), key, sequence, shard), headers)
  {
    var delivered := WithNative(Inserted(map[], Carried(headers)), key, sequence, shard);
    forall h | h in headers && !Native(h.name)
      ensures h.name in delivered && delivered[h.name] == h.value
    {
      CarriedKeepsTheRest(headers);
      InsertedHolds(Carried(headers), h);
    }
    forall name | name in delivered && !Native(name)
      ensures exists h :: h in headers && h.name == name
    {
      CarriedKeepsTheRest(headers);
      InsertedOnlyHolds(Carried(headers), name);
    }
  }

  lemma EnvelopeArrives(carried: seq<Header>, payload: Bytes, text: Bytes -> HeaderMap)
    requires BlockLen(carried) < U32 && Distinct(carried)
    ensures Enveloped(Sealed(carried, payload), text) == Inserted(map[], carried)
  {
    SealedRecordOpens(carried, payload);
    SealedIsNoText(carried, payload);
  }

  lemma InsertedHolds(headers: seq<Header>, h: Header)
    requires Distinct(headers) && h in headers
    ensures h.name in Inserted(map[], headers) && Inserted(map[], headers)[h.name] == h.value
  {
    var i :| 0 <= i < |headers| && headers[i] == h;
    InsertedHasEach(map[], headers, i);
  }

  lemma InsertedOnlyHolds(headers: seq<Header>, name: Bytes)
    requires name in Inserted(map[], headers)
    ensures exists h :: h in headers && h.name == name
  {
    if forall i :: 0 <= i < |headers| ==> headers[i].name != name {
      InsertedElsewhere(map[], headers, name);
      assert false;
    } else {
      var i :| 0 <= i < |headers| && headers[i].name == name;
      assert headers[i] in headers;
    }
  }

  /** The writer never writes what a reader takes for the text envelope. */
  lemma SealedIsNoText(headers: seq<Header>, payload: Bytes)
    ensures Split(Sealed(headers, payload)).Some? ==> Split(Sealed(headers, payload)).value.0.Binary?
  {
  }
}
