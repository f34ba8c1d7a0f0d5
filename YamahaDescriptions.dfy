/** The Yamaha discovery (YSDP) packet and its SCP data section
    (src/network/protocol/yamaha/descriptions.py).

    A text field is held as the bytes of its UTF-8 encoding, so it is always well-formed
    UTF-8, and every place the parser decodes one fails with UnicodeDecodeError on bytes
    that are not; the IPv4 and MAC fields are the ASCII strings the parser renders. Each parser advances an offset cursor field by field and
    each serialiser builds a byte array by append/extend; both are methods whose results
    are pinned to the pure definitions below, about which the round trips are proved. */
module YamahaDescriptions {
  import opened Wrappers
  import opened Bytes
  import opened Strings
  import opened Ipv4

  /** A Python `str`, as the bytes of its UTF-8 encoding. */
  type Text = t: seq<byte> | WellFormedUtf8(t) witness []

  datatype ScpData = ScpData(manufacturer: Text, deviceModel: Text, deviceId: Text, deviceName: Text)

  datatype YsdpPacket = YsdpPacket(
    baseProtoName: Text,
    messageLen: nat,
    magicBytes: seq<byte>,
    ipAddress: string,
    reserved: seq<byte>,
    macAddress: string,
    protoName: Text,
    data: ScpData)

  // ---------------------------------------------------------------------------
  // SCP data section

  /** The bytes of the field whose length byte is at `off`: cut short silently when the
      data ends early. */
  function FieldBytes(data: seq<byte>, off: nat): seq<byte>
    requires off < |data|
  {
    PySlice(data, off + 1, off + 1 + data[off])
  }

  /** One length-prefixed field at `off`: the length byte must exist (else IndexError) and
      the bytes after it must decode as UTF-8 (else UnicodeDecodeError). Gives the field
      and the offset just past it. */
  function ReadField(data: seq<byte>, off: nat): (r: Result<(Text, nat)>)
    ensures r.Err? <==> off >= |data| || !WellFormedUtf8(FieldBytes(data, off))
    ensures r.Err? ==> r.error == if off >= |data| then IndexError else UnicodeDecodeError
    ensures r.Ok? ==> r.value.0 == FieldBytes(data, off) && r.value.1 == off + 1 + data[off]
  {
    if off >= |data| then Err(IndexError)
    else
      var field := FieldBytes(data, off);
      if !WellFormedUtf8(field) then Err(UnicodeDecodeError)
      else Ok((field, off + 1 + data[off]))
  }

  /** The first `k` length-prefixed fields of a data section, read one after the other
      from offset 0, and the offset after them. */
  function ReadFields(data: seq<byte>, k: nat): (r: Result<(seq<Text>, nat)>)
    ensures r.Ok? ==> |r.value.0| == k
    ensures r.Err? ==> r.error == IndexError || r.error == UnicodeDecodeError
  {
    if k == 0 then Ok(([], 0))
    else
      var prev := ReadFields(data, k - 1);
      if prev.Err? then prev
      else
        var f := ReadField(data, prev.value.1);
        if f.Err? then Err(f.error) else Ok((prev.value.0 + [f.value.0], f.value.1))
  }

  /** `SCPData.from_bytes`: four length-prefixed fields in the order manufacturer, model,
      id, name. Bytes after the fourth field are ignored. */
  function ScpDecode(data: seq<byte>): (r: Result<ScpData>)
    ensures r.Err? ==> r.error == IndexError || r.error == UnicodeDecodeError
  {
    var fields := ReadFields(data, 4);
    if fields.Err? then Err(fields.error)
    else Ok(ScpData(fields.value.0[0], fields.value.0[1], fields.value.0[2], fields.value.0[3]))
  }

  /** `bytearray.append(len(t))` then `extend(t)`. */
  function Prefixed(t: Text): seq<byte>
    requires |t| < 256
  {
    [|t|] + t
  }

  predicate ScpFits(d: ScpData)
  {
    |d.manufacturer| < 256 && |d.deviceModel| < 256 && |d.deviceId| < 256 && |d.deviceName| < 256
  }

  /** `SCPData.to_bytes`: the four fields in order, each after its length byte; a field of
      256 bytes or more makes `append` raise ValueError. */
  function ScpEncode(d: ScpData): (r: Result<seq<byte>>)
    ensures r.Ok? <==> ScpFits(d)
    ensures r.Err? ==> r.error == ValueError
    ensures r.Ok? ==> |r.value| == 4 + |d.manufacturer| + |d.deviceModel| + |d.deviceId| + |d.deviceName|
  {
    if !ScpFits(d) then Err(ValueError)
    else Ok(Prefixed(d.manufacturer) + Prefixed(d.deviceModel) + Prefixed(d.deviceId) + Prefixed(d.deviceName))
  }

  /** A length byte followed by the whole field reads back as that field, whatever
      surrounds it. */
  lemma ReadPrefixed(before: seq<byte>, t: Text, after: seq<byte>)
    requires |t| < 256
    ensures ReadField(before + Prefixed(t) + after, |before|) == Ok((t, |before| + 1 + |t|))
  {
    var data := before + Prefixed(t) + after;
    assert data[|before|] == |t|;
    assert data[|before| + 1..|before| + 1 + |t|] == t;
    assert FieldBytes(data, |before|) == t;
  }

  /** Four successful field reads make a successful decode. */
  lemma ScpDecodeFields(data: seq<byte>, d: ScpData, o1: nat, o2: nat, o3: nat, o4: nat)
    requires ReadField(data, 0) == Ok((d.manufacturer, o1))
    requires ReadField(data, o1) == Ok((d.deviceModel, o2))
    requires ReadField(data, o2) == Ok((d.deviceId, o3))
    requires ReadField(data, o3) == Ok((d.deviceName, o4))
    ensures ScpDecode(data) == Ok(d)
  {
    assert ReadFields(data, 0) == Ok(([], 0));
    ReadFieldsNext(data, 0, [], 0, d.manufacturer, o1);
    ReadFieldsNext(data, 1, [] + [d.manufacturer], o1, d.deviceModel, o2);
    ReadFieldsNext(data, 2, [] + [d.manufacturer] + [d.deviceModel], o2, d.deviceId, o3);
    ReadFieldsNext(data, 3, [] + [d.manufacturer] + [d.deviceModel] + [d.deviceId], o3, d.deviceName, o4);
  }

  /** One more successful field read extends the fields read so far. */
  lemma ReadFieldsNext(data: seq<byte>, k: nat, fields: seq<Text>, off: nat, t: Text, next: nat)
    requires ReadFields(data, k) == Ok((fields, off))
    requires ReadField(data, off) == Ok((t, next))
    ensures ReadFields(data, k + 1) == Ok((fields + [t], next))
  {
  }

  lemma Regroup<T>(a: seq<T>, b: seq<T>, c: seq<T>, d: seq<T>, e: seq<T>)
    ensures a + b + c + d + e == [] + a + (b + c + d + e)
    ensures a + b + c + d + e == a + b + (c + d + e)
    ensures a + b + c + d + e == (a + b) + c + (d + e)
  {
  }

  /** The SCP round trip, with any bytes after the encoding left unread. */
  lemma ScpDecodeEncode(d: ScpData, tail: seq<byte>)
    requires ScpFits(d)
    ensures ScpDecode(ScpEncode(d).value + tail) == Ok(d)
  {
    var p1, p2, p3, p4 := Prefixed(d.manufacturer), Prefixed(d.deviceModel), Prefixed(d.deviceId), Prefixed(d.deviceName);
    assert ScpEncode(d).value == p1 + p2 + p3 + p4;
    ScpDecodePrefixed(d, p1, p2, p3, p4, tail);
  }

  /** The four length-prefixed fields, then anything, decode to the four fields. */
  lemma ScpDecodePrefixed(d: ScpData, p1: seq<byte>, p2: seq<byte>, p3: seq<byte>, p4: seq<byte>, tail: seq<byte>)
    requires ScpFits(d)
    requires p1 == Prefixed(d.manufacturer) && p2 == Prefixed(d.deviceModel)
    requires p3 == Prefixed(d.deviceId) && p4 == Prefixed(d.deviceName)
    ensures ScpDecode(p1 + p2 + p3 + p4 + tail) == Ok(d)
  {
    var data := p1 + p2 + p3 + p4 + tail;
    FirstTwoFields(d, p1, p2, p3, p4, tail);
    LastTwoFields(d, p1, p2, p3, p4, tail);
    ScpDecodeFields(data, d, |p1|, |p1| + |p2|, |p1| + |p2| + |p3|, |p1| + |p2| + |p3| + |p4|);
  }

  lemma FirstTwoFields(d: ScpData, p1: seq<byte>, p2: seq<byte>, p3: seq<byte>, p4: seq<byte>, tail: seq<byte>)
    requires ScpFits(d)
    requires p1 == Prefixed(d.manufacturer) && p2 == Prefixed(d.deviceModel)
    ensures ReadField(p1 + p2 + p3 + p4 + tail, 0) == Ok((d.manufacturer, |p1|))
    ensures ReadField(p1 + p2 + p3 + p4 + tail, |p1|) == Ok((d.deviceModel, |p1| + |p2|))
  {
    Regroup(p1, p2, p3, p4, tail);
    ReadPrefixed([], d.manufacturer, p2 + p3 + p4 + tail);
    ReadPrefixed(p1, d.deviceModel, p3 + p4 + tail);
  }

  lemma LastTwoFields(d: ScpData, p1: seq<byte>, p2: seq<byte>, p3: seq<byte>, p4: seq<byte>, tail: seq<byte>)
    requires ScpFits(d)
    requires p3 == Prefixed(d.deviceId) && p4 == Prefixed(d.deviceName)
    ensures ReadField(p1 + p2 + p3 + p4 + tail, |p1| + |p2|) == Ok((d.deviceId, |p1| + |p2| + |p3|))
    ensures ReadField(p1 + p2 + p3 + p4 + tail, |p1| + |p2| + |p3|) == Ok((d.deviceName, |p1| + |p2| + |p3| + |p4|))
  {
    Regroup(p1, p2, p3, p4, tail);
    ReadPrefixed(p1 + p2, d.deviceId, p4 + tail);
    ReadPrefixed(p1 + p2 + p3, d.deviceName, tail);
  }

  /** `SCPData.from_bytes(d.to_bytes()) == d` whenever `to_bytes` succeeds. */
  lemma ScpRoundTrip(d: ScpData)
    requires ScpEncode(d).Ok?
    ensures ScpDecode(ScpEncode(d).value) == Ok(d)
  {
    ScpDecodeEncode(d, []);
    assert ScpEncode(d).value + [] == ScpEncode(d).value;
  }

  /** One step of the cursor: read the length byte at `offset`, then that many bytes
      (fewer if the data ends first), and move past them. */
  method ReadLengthPrefixed(data: seq<byte>, offset: nat) returns (r: Result<(Text, nat)>)
    ensures r == ReadField(data, offset)
  {
    if offset >= |data| { return Err(IndexError); }
    var fieldLen := data[offset];
    var cursor := offset + 1;
    var field := PySlice(data, cursor, cursor + fieldLen);
    if !WellFormedUtf8(field) { return Err(UnicodeDecodeError); }
    cursor := cursor + fieldLen;
    r := Ok((field, cursor));
  }

  /** `SCPData.from_bytes`, advancing an offset cursor over the four fields. */
  method ScpFromBytes(data: seq<byte>) returns (r: Result<ScpData>)
    ensures r == ScpDecode(data)
  {
    var offset := 0;
    assert ReadFields(data, 0) == Ok(([], 0));

    var manufacturer := ReadLengthPrefixed(data, offset);
    if manufacturer.Err? {
      ReadFails(data, 0);
      return Err(manufacturer.error);
    }
    ReadFieldsNext(data, 0, [], offset, manufacturer.value.0, manufacturer.value.1);
    offset := manufacturer.value.1;

    var deviceModel := ReadLengthPrefixed(data, offset);
    if deviceModel.Err? {
      ReadFails(data, 1);
      return Err(deviceModel.error);
    }
    ReadFieldsNext(data, 1, [] + [manufacturer.value.0], offset, deviceModel.value.0, deviceModel.value.1);
    offset := deviceModel.value.1;

    var deviceId := ReadLengthPrefixed(data, offset);
    if deviceId.Err? {
      ReadFails(data, 2);
      return Err(deviceId.error);
    }
    ReadFieldsNext(data, 2, [] + [manufacturer.value.0] + [deviceModel.value.0], offset, deviceId.value.0, deviceId.value.1);
    offset := deviceId.value.1;

    var deviceName := ReadLengthPrefixed(data, offset);
    if deviceName.Err? {
      ReadFails(data, 3);
      return Err(deviceName.error);
    }
    ReadFieldsNext(data, 3, [] + [manufacturer.value.0] + [deviceModel.value.0] + [deviceId.value.0], offset,
      deviceName.value.0, deviceName.value.1);
    offset := deviceName.value.1;

    r := Ok(ScpData(manufacturer.value.0, deviceModel.value.0, deviceId.value.0, deviceName.value.0));
  }

  /** Once the read of the field after the first `k` fails, the decode fails with that
      read's error: the fields after it are never reached. */
  lemma ReadFails(data: seq<byte>, k: nat)
    requires k < 4 && ReadFields(data, k).Ok? && ReadField(data, ReadFields(data, k).value.1).Err?
    ensures ScpDecode(data) == Err(ReadField(data, ReadFields(data, k).value.1).error)
  {
    var e := ReadField(data, ReadFields(data, k).value.1).error;
    assert ReadFields(data, k + 1) == Err(e);
    if k + 2 <= 4 { assert ReadFields(data, k + 2) == Err(e); }
    if k + 3 <= 4 { assert ReadFields(data, k + 3) == Err(e); }
    if k + 4 <= 4 { assert ReadFields(data, k + 4) == Err(e); }
  }

  /** The example of a field that is not UTF-8: a length byte 1 and the byte 0xFF, which
      no UTF-8 character starts with. */
  lemma MalformedField()
    ensures ScpDecode([1, 0xFF, 0, 0, 0]) == Err(UnicodeDecodeError)
  {
    var data: seq<byte> := [1, 0xFF, 0, 0, 0];
    assert FieldBytes(data, 0) == [0xFF];
    assert Utf8CharLen([0xFF], 0) == 0;
    assert ReadFields(data, 0) == Ok(([], 0));
    ReadFails(data, 0);
  }

  /** `SCPData.to_bytes`, building the result by append/extend. */
  method ScpToBytes(d: ScpData) returns (r: Result<seq<byte>>)
    ensures r == ScpEncode(d)
  {
    var result: seq<byte> := [];

    if |d.manufacturer| >= 256 { return Err(ValueError); }
    result := result + [|d.manufacturer|];
    result := result + d.manufacturer;

    if |d.deviceModel| >= 256 { return Err(ValueError); }
    result := result + [|d.deviceModel|];
    result := result + d.deviceModel;

    if |d.deviceId| >= 256 { return Err(ValueError); }
    result := result + [|d.deviceId|];
    result := result + d.deviceId;

    if |d.deviceName| >= 256 { return Err(ValueError); }
    result := result + [|d.deviceName|];
    result := result + d.deviceName;

    assert result == Prefixed(d.manufacturer) + Prefixed(d.deviceModel) + Prefixed(d.deviceId) + Prefixed(d.deviceName);
    r := Ok(result);
  }

  // ---------------------------------------------------------------------------
  // Address rendering and parsing

  /** `struct.unpack(">H", b)[0]`: exactly two bytes, else StructError. */
  function UnpackU16(b: seq<byte>): (r: Result<nat>)
    ensures r.Ok? <==> |b| == 2
    ensures r.Err? ==> r.error == StructError
  {
    if |b| != 2 then Err(StructError) else Ok(BeU16Value(b))
  }

  /** `f"{b:02x}"` for each byte. */
  function HexPairs(bs: seq<byte>): (r: seq<string>)
    ensures |r| == |bs|
    ensures forall k :: 0 <= k < |r| ==> r[k] == Hex2(bs[k])
  {
    if |bs| == 0 then [] else [Hex2(bs[0])] + HexPairs(bs[1..])
  }

  /** The MAC text `from_bytes` renders: two lower-case hex digits per byte, joined by ":". */
  function ColonHex(bs: seq<byte>): string { Join(HexPairs(bs), ":") }

  /** `bytearray.extend(int(o) for o in parts)`: a piece that `int()` rejects, or whose
      value is outside [0, 256), raises ValueError. */
  function DecimalOctets(parts: seq<string>): (r: Result<seq<byte>>)
    ensures r.Ok? ==> |r.value| == |parts|
    ensures r.Err? ==> r.error == ValueError
  {
    if |parts| == 0 then Ok([])
    else
      var head := ParseInt(parts[0]);
      if head.Err? || !(0 <= head.value < 256) then Err(ValueError)
      else
        var rest := DecimalOctets(parts[1..]);
        if rest.Err? then rest else Ok([head.value as byte] + rest.value)
  }

  /** `bytearray.extend(int(b, 16) for b in parts)`, with the same range check. */
  function HexOctets(parts: seq<string>): (r: Result<seq<byte>>)
    ensures r.Ok? ==> |r.value| == |parts|
    ensures r.Err? ==> r.error == ValueError
  {
    if |parts| == 0 then Ok([])
    else
      var head := ParseHex(parts[0]);
      if head.Err? || !(head.value < 256) then Err(ValueError)
      else
        var rest := HexOctets(parts[1..]);
        if rest.Err? then rest else Ok([head.value as byte] + rest.value)
  }

  lemma {:induction false} DecimalOctetsOf(bs: seq<byte>)
    ensures DecimalOctets(Decimals(bs)) == Ok(bs)
    decreases |bs|
  {
    if |bs| > 0 {
      ParseNatString(bs[0]);
      assert Decimals(bs)[1..] == Decimals(bs[1..]);
      DecimalOctetsOf(bs[1..]);
      assert [bs[0]] + bs[1..] == bs;
    }
  }

  lemma {:induction false} HexOctetsOf(bs: seq<byte>)
    ensures HexOctets(HexPairs(bs)) == Ok(bs)
    decreases |bs|
  {
    if |bs| > 0 {
      ParseHex2(bs[0]);
      assert HexPairs(bs)[1..] == HexPairs(bs[1..]);
      HexOctetsOf(bs[1..]);
      assert [bs[0]] + bs[1..] == bs;
    }
  }

  /** `to_bytes` parses the dotted-decimal text `from_bytes` renders back to the same
      octets. (No octet gives an empty text, which `int("")` would reject.) */
  lemma IpRoundTrip(bs: seq<byte>)
    requires |bs| >= 1
    ensures DecimalOctets(Split(DottedDecimal(bs), '.')) == Ok(bs)
  {
    var parts := Decimals(bs);
    forall k | 0 <= k < |parts|
      ensures '.' !in parts[k]
    {
      NotInDigits(parts[k], '.');
    }
    SplitJoin(parts, '.');
    DecimalOctetsOf(bs);
  }

  /** `to_bytes` parses the colon-hex text `from_bytes` renders back to the same bytes. */
  lemma MacRoundTrip(bs: seq<byte>)
    requires |bs| >= 1
    ensures HexOctets(Split(ColonHex(bs), ':')) == Ok(bs)
  {
    var parts := HexPairs(bs);
    SplitJoin(parts, ':');
    HexOctetsOf(bs);
  }

  // ---------------------------------------------------------------------------
  // YSDP packet

  /** `YSDPPacket.from_bytes`. Layout: 4-byte protocol name, big-endian u16 message
      length, 2 magic bytes, 4 IPv4 octets, 12 reserved bytes, 6 MAC bytes, a length byte
      and the protocol name, a big-endian u16 data length, the SCP data section. Nothing
      is validated. What fails, in the order the parser meets it: the UTF-8 decode of the
      first four bytes (UnicodeDecodeError, whatever the packet's length), `unpack` of the
      message length given fewer than two bytes (StructError: a packet shorter than 6
      bytes), the read of the name's length byte at offset 30 (IndexError), then the
      name's own decode, the data length's `unpack` and the data section's parser. The
      slices of the names and of the data section are cut short silently. */
  function PacketDecode(packet: seq<byte>): (r: Result<YsdpPacket>)
  {
    var base := PySlice(packet, 0, 4);
    if !WellFormedUtf8(base) then Err(UnicodeDecodeError)
    else if |packet| < 6 then Err(StructError)
    else if |packet| <= 30 then Err(IndexError)
    else
      var tail := TailDecode(packet);
      if tail.Err? then Err(tail.error)
      else
        Ok(YsdpPacket(
          base, BeU16Value(packet[4..6]), packet[6..8], DottedDecimal(packet[8..12]),
          packet[12..24], ColonHex(packet[24..30]), tail.value.0, tail.value.1))
  }

  /** The fields from offset 30 on: the name's length byte and the name (read as an SCP
      field is), the data length and the data section. */
  function TailDecode(packet: seq<byte>): Result<(Text, ScpData)>
    requires |packet| > 30
  {
    var name := ReadField(packet, 30);
    if name.Err? then Err(name.error)
    else
      var off := name.value.1;
      if |packet| < off + 2 then Err(StructError)
      else
        var dataLen := BeU16Value(packet[off..off + 2]);
        var data := ScpDecode(packet[off + 2..Min(off + 2 + dataLen, |packet|)]);
        if data.Err? then Err(data.error)
        else Ok((name.value.0, data.value))
  }

  /** The message after the length field, as `to_bytes` builds it. */
  function Content(p: YsdpPacket, ip: seq<byte>, mac: seq<byte>, scp: seq<byte>): seq<byte>
    requires |p.protoName| < 256 && |scp| < 0x1_0000
  {
    p.magicBytes + (ip + (p.reserved + (mac + (Prefixed(p.protoName) + (BeU16(|scp|) + scp)))))
  }

  /** The message as `to_bytes` accumulates it, one extend after the other. */
  lemma ContentAppended(p: YsdpPacket, ip: seq<byte>, mac: seq<byte>, scp: seq<byte>)
    requires |p.protoName| < 256 && |scp| < 0x1_0000
    ensures [] + p.magicBytes + ip + p.reserved + mac + [|p.protoName| as byte] + p.protoName + BeU16(|scp|) + scp
      == Content(p, ip, mac, scp)
  {
  }

  /** `YSDPPacket.to_bytes`: the name, then the message length as a big-endian u16, then
      the message. The IPv4 and MAC texts are parsed back to bytes (ValueError when they do
      not parse), and the stored `message_len` is ignored: the length written is the
      number of bytes that follow it (StructError when that does not fit 16 bits). */
  function PacketEncode(p: YsdpPacket): (r: Result<seq<byte>>)
  {
    var message := MessageEncode(p);
    if message.Err? then Err(message.error)
    else if |message.value| >= 0x1_0000 then Err(StructError)
    else Ok(p.baseProtoName + (BeU16(|message.value|) + message.value))
  }

  /** The message `to_bytes` builds before prefixing its length: the texts parsed back to
      bytes, the name after its length byte, the data section after its own length. */
  function MessageEncode(p: YsdpPacket): (r: Result<seq<byte>>)
  {
    var ip := DecimalOctets(Split(p.ipAddress, '.'));
    if ip.Err? then Err(ip.error)
    else
      var mac := HexOctets(Split(p.macAddress, ':'));
      if mac.Err? then Err(mac.error)
      else if |p.protoName| >= 256 then Err(ValueError)
      else
        var scp := ScpEncode(p.data);
        if scp.Err? then Err(scp.error)
        else Ok(Content(p, ip.value, mac.value, scp.value))
  }

  /** The message-length field of an encoded packet counts exactly the bytes after it. */
  lemma MessageLenCountsRest(p: YsdpPacket)
    requires PacketEncode(p).Ok?
    ensures var b := PacketEncode(p).value; var n := |p.baseProtoName|;
      |b| >= n + 2 && BeU16Value(b[n..n + 2]) == |b| - n - 2
  {
    var b := PacketEncode(p).value;
    var n := |p.baseProtoName|;
    var rest := b[n..];
    assert rest[..2] == b[n..n + 2];
    BeU16RoundTrip(|rest| - 2);
  }

  /** `s[i..]` starts with `a`: the next field is `a` and the cursor moves past it. */
  lemma Field<T>(s: seq<T>, i: nat, a: seq<T>, rest: seq<T>)
    requires i <= |s| && s[i..] == a + rest
    ensures i + |a| <= |s|
    ensures s[i..i + |a|] == a && s[i + |a|..] == rest
  {
    assert s[i..][..|a|] == a;
    assert s[i..][|a|..] == rest;
  }

  /** The fixed-size head of a packet laid out as `to_bytes` lays it out. */
  lemma HeadFields(packet: seq<byte>, base: seq<byte>, len: seq<byte>, magic: seq<byte>, ip: seq<byte>,
                   reserved: seq<byte>, mac: seq<byte>, tail: seq<byte>)
    requires |base| == 4 && |len| == 2 && |magic| == 2 && |ip| == 4 && |reserved| == 12 && |mac| == 6
    requires packet == base + (len + (magic + (ip + (reserved + (mac + tail)))))
    ensures |packet| == 30 + |tail|
    ensures packet[0..4] == base && packet[4..6] == len && packet[6..8] == magic
    ensures packet[8..12] == ip && packet[12..24] == reserved && packet[24..30] == mac
    ensures packet[30..] == tail
  {
    Field(packet, 0, base, len + (magic + (ip + (reserved + (mac + tail)))));
    Field(packet, 4, len, magic + (ip + (reserved + (mac + tail))));
    Field(packet, 6, magic, ip + (reserved + (mac + tail)));
    Field(packet, 8, ip, reserved + (mac + tail));
    Field(packet, 12, reserved, mac + tail);
    Field(packet, 24, mac, tail);
  }

  /** The variable-size tail: the name with its length byte, the data length, the data. */
  lemma TailFields(packet: seq<byte>, proto: Text, scp: seq<byte>)
    requires |packet| >= 30 && |proto| < 256 && |scp| < 0x1_0000
    requires packet[30..] == Prefixed(proto) + (BeU16(|scp|) + scp)
    ensures |packet| == 33 + |proto| + |scp|
    ensures packet[30] == |proto| && packet[31..31 + |proto|] == proto
    ensures packet[31 + |proto|..33 + |proto|] == BeU16(|scp|)
    ensures packet[33 + |proto|..33 + |proto| + |scp|] == scp
  {
    assert packet[30] == packet[30..][0];
    Field(packet, 30, Prefixed(proto), BeU16(|scp|) + scp);
    assert packet[31..31 + |proto|] == packet[30..31 + |proto|][1..];
    Field(packet, 31 + |proto|, BeU16(|scp|), scp);
    Field(packet, 33 + |proto|, scp, []);
  }

  /** Decoding a packet laid out field by field gives the fixed fields back and hands the
      data section, exactly, to the SCP parser. */
  lemma DecodeShape(packet: seq<byte>, base: Text, len: seq<byte>, magic: seq<byte>, ip: seq<byte>,
                    reserved: seq<byte>, mac: seq<byte>, proto: Text, scp: seq<byte>)
    requires |base| == 4 && |len| == 2 && |magic| == 2 && |ip| == 4 && |reserved| == 12 && |mac| == 6
    requires |proto| < 256 && |scp| < 0x1_0000
    requires packet == base + (len + (magic + (ip + (reserved + (mac + (Prefixed(proto) + (BeU16(|scp|) + scp)))))))
    ensures var d := ScpDecode(scp);
      PacketDecode(packet) == if d.Err? then Err(d.error) else
        Ok(YsdpPacket(base, BeU16Value(len), magic, DottedDecimal(ip), reserved, ColonHex(mac), proto, d.value))
  {
    HeadFields(packet, base, len, magic, ip, reserved, mac, Prefixed(proto) + (BeU16(|scp|) + scp));
    TailFields(packet, proto, scp);
    BeU16RoundTrip(|scp|);
  }

  /** Decoding a packet laid out as `to_bytes` lays it out gives its fields back. */
  lemma DecodeLayout(packet: seq<byte>, base: Text, messageLen: nat, magic: seq<byte>, ip: seq<byte>,
                     reserved: seq<byte>, mac: seq<byte>, proto: Text, d: ScpData)
    requires |base| == 4 && messageLen < 0x1_0000 && |magic| == 2 && |ip| == 4 && |reserved| == 12 && |mac| == 6
    requires |proto| < 256 && ScpFits(d)
    requires packet == base + (BeU16(messageLen) + (magic + (ip + (reserved + (mac +
      (Prefixed(proto) + (BeU16(|ScpEncode(d).value|) + ScpEncode(d).value)))))))
    ensures PacketDecode(packet) == Ok(YsdpPacket(base, messageLen, magic, DottedDecimal(ip), reserved, ColonHex(mac), proto, d))
  {
    DecodeShape(packet, base, BeU16(messageLen), magic, ip, reserved, mac, proto, ScpEncode(d).value);
    BeU16RoundTrip(messageLen);
    ScpRoundTrip(d);
  }

  /** The packet round trip: for a packet whose name, magic and reserved fields have their
      fixed sizes, whose IPv4 and MAC texts are the renderings of 4 and 6 bytes and whose
      text fields fit their length bytes, `from_bytes(to_bytes(p))` gives `p` back with
      `message_len` replaced by the number of bytes after that field. */
  lemma PacketRoundTrip(p: YsdpPacket, ip: seq<byte>, mac: seq<byte>)
    requires |p.baseProtoName| == 4 && |p.magicBytes| == 2 && |p.reserved| == 12
    requires |ip| == 4 && p.ipAddress == DottedDecimal(ip)
    requires |mac| == 6 && p.macAddress == ColonHex(mac)
    requires |p.protoName| < 256 && ScpFits(p.data)
    ensures PacketEncode(p).Ok?
    ensures |PacketEncode(p).value| == 33 + |p.protoName| + |ScpEncode(p.data).value|
    ensures PacketDecode(PacketEncode(p).value) == Ok(p.(messageLen := |PacketEncode(p).value| - 6))
  {
    IpRoundTrip(ip);
    MacRoundTrip(mac);
    var scp := ScpEncode(p.data).value;
    var content := Content(p, ip, mac, scp);
    assert |content| < 0x1_0000;
    assert MessageEncode(p) == Ok(content);
    var b := p.baseProtoName + (BeU16(|content|) + content);
    assert PacketEncode(p) == Ok(b);
    DecodeLayout(b, p.baseProtoName, |content|, p.magicBytes, ip, p.reserved, mac, p.protoName, p.data);
  }

  /** A packet whose stored `message_len` is already right survives the round trip whole. */
  lemma PacketRoundTripExact(p: YsdpPacket, ip: seq<byte>, mac: seq<byte>)
    requires |p.baseProtoName| == 4 && |p.magicBytes| == 2 && |p.reserved| == 12
    requires |ip| == 4 && p.ipAddress == DottedDecimal(ip)
    requires |mac| == 6 && p.macAddress == ColonHex(mac)
    requires |p.protoName| < 256 && ScpFits(p.data)
    requires p.messageLen == 27 + |p.protoName| + |ScpEncode(p.data).value|
    ensures PacketEncode(p).Ok? && PacketDecode(PacketEncode(p).value) == Ok(p)
  {
    PacketRoundTrip(p, ip, mac);
    assert p.(messageLen := |PacketEncode(p).value| - 6) == p;
  }

  /** `YSDPPacket.from_bytes`, advancing an offset cursor field by field. */
  method PacketFromBytes(packet: seq<byte>) returns (r: Result<YsdpPacket>)
    ensures r == PacketDecode(packet)
  {
    var offset := 0;
    var baseProtoName := PySlice(packet, offset, offset + 4);
    if !WellFormedUtf8(baseProtoName) { return Err(UnicodeDecodeError); }
    offset := offset + 4;

    var lenField := PySlice(packet, offset, offset + 2);
    if |lenField| != 2 { return Err(StructError); }
    var messageLen := BeU16Value(lenField);
    offset := offset + 2;

    var magicBytes := PySlice(packet, offset, offset + 2);
    offset := offset + 2;

    var ipBytes := PySlice(packet, offset, offset + 4);
    offset := offset + 4;

    var reserved := PySlice(packet, offset, offset + 12);
    offset := offset + 12;

    var macBytes := PySlice(packet, offset, offset + 6);
    offset := offset + 6;

    if offset >= |packet| { return Err(IndexError); }
    assert baseProtoName == packet[0..4] && lenField == packet[4..6] && magicBytes == packet[6..8];
    assert ipBytes == packet[8..12] && reserved == packet[12..24] && macBytes == packet[24..30];
    var tail := ReadTail(packet, offset);
    if tail.Err? { return Err(tail.error); }
    var (protoName, data) := tail.value;

    // The texts are rendered here rather than when their bytes are read; rendering cannot fail.
    var ipAddress := DottedDecimal(ipBytes);
    var macAddress := ColonHex(macBytes);
    r := Ok(YsdpPacket(baseProtoName, messageLen, magicBytes, ipAddress, reserved, macAddress, protoName, data));
  }

  /** The second half of `from_bytes`, from the name's length byte on. */
  method ReadTail(packet: seq<byte>, start: nat) returns (r: Result<(Text, ScpData)>)
    requires start == 30 < |packet|
    ensures r == TailDecode(packet)
  {
    var name := ReadLengthPrefixed(packet, start);
    if name.Err? { return Err(name.error); }
    var (protoName, offset) := name.value;

    var dataLenField := PySlice(packet, offset, offset + 2);
    if |dataLenField| != 2 { return Err(StructError); }
    assert offset + 2 <= |packet|;
    var dataLen := BeU16Value(dataLenField);
    offset := offset + 2;

    var dataBytes := PySlice(packet, offset, offset + dataLen);
    var data := ScpFromBytes(dataBytes);
    if data.Err? { return Err(data.error); }
    r := Ok((protoName, data.value));
  }

  /** `YSDPPacket.to_bytes`, building the message first and then prefixing its length. */
  method PacketToBytes(p: YsdpPacket) returns (r: Result<seq<byte>>)
    ensures r == PacketEncode(p)
  {
    var result: seq<byte> := [];
    result := result + p.baseProtoName;

    var messageContent := MessageToBytes(p);
    if messageContent.Err? { return Err(messageContent.error); }

    if |messageContent.value| >= 0x1_0000 { return Err(StructError); }
    result := result + BeU16(|messageContent.value|);
    result := result + messageContent.value;
    assert result == p.baseProtoName + (BeU16(|messageContent.value|) + messageContent.value);
    r := Ok(result);
  }

  /** The message of `to_bytes`, one extend after the other. */
  method MessageToBytes(p: YsdpPacket) returns (r: Result<seq<byte>>)
    ensures r == MessageEncode(p)
  {
    var messageContent: seq<byte> := [];
    messageContent := messageContent + p.magicBytes;

    var ip := DecimalOctets(Split(p.ipAddress, '.'));
    if ip.Err? { return Err(ip.error); }
    messageContent := messageContent + ip.value;

    messageContent := messageContent + p.reserved;

    var mac := HexOctets(Split(p.macAddress, ':'));
    if mac.Err? { return Err(mac.error); }
    messageContent := messageContent + mac.value;

    if |p.protoName| >= 256 { return Err(ValueError); }
    var protoNameLen: byte := |p.protoName|;
    messageContent := messageContent + [protoNameLen];
    messageContent := messageContent + p.protoName;

    var dataBytes := ScpToBytes(p.data);
    if dataBytes.Err? { return Err(dataBytes.error); }
    messageContent := messageContent + BeU16(|dataBytes.value|);
    messageContent := messageContent + dataBytes.value;
    ContentAppended(p, ip.value, mac.value, dataBytes.value);
    r := Ok(messageContent);
  }

  /** The base name is decoded before anything else is read: when its bytes are not
      UTF-8 that is the error, however short or long the packet. */
  lemma MalformedBaseName(packet: seq<byte>)
    requires !WellFormedUtf8(PySlice(packet, 0, 4))
    ensures PacketDecode(packet) == Err(UnicodeDecodeError)
  {
  }

  /** With a base name that decodes, a packet too short for the message-length field fails
      in `unpack`; one that has it but ends before the protocol name's length byte fails on
      that read. */
  lemma ShortPacket(packet: seq<byte>)
    requires |packet| <= 30 && WellFormedUtf8(PySlice(packet, 0, 4))
    ensures |packet| < 6 ==> PacketDecode(packet) == Err(StructError)
    ensures |packet| >= 6 ==> PacketDecode(packet) == Err(IndexError)
  {
  }

  /** Every failure of `from_bytes` is a StructError, an IndexError or a
      UnicodeDecodeError. */
  lemma DecodeErrors(packet: seq<byte>)
    requires PacketDecode(packet).Err?
    ensures PacketDecode(packet).error in {StructError, IndexError, UnicodeDecodeError}
  {
  }

  // ---------------------------------------------------------------------------
  // The discovery request

  /** The data section of the payload the discoverer multicasts
      (src/network/protocol/yamaha/discovery.py): three length-prefixed strings,
      "Yamaha", "R Remote" and "Y000". */
  const DiscoveryData: seq<byte> := [
    0x06, 0x59, 0x61, 0x6d, 0x61, 0x68, 0x61,
    0x08, 0x52, 0x20, 0x52, 0x65, 0x6d, 0x6f, 0x74, 0x65,
    0x04, 0x59, 0x30, 0x30, 0x30]

  /** What follows the MAC address: the protocol name "_ypa-scp" with its length byte, the
      data length 0x0015 and the data section. */
  const DiscoveryTail: seq<byte> := [0x08, 0x5f, 0x79, 0x70, 0x61, 0x2d, 0x73, 0x63, 0x70] + ([0x00, 0x15] + DiscoveryData)

  /** The whole payload: "YSDP", message length 0x0038, magic 00 04, IPv4 c0 a8 fa 14,
      twelve reserved zero bytes, MAC 08 00 27 3d e0 05, then the tail. */
  const DiscoveryPayload: seq<byte> :=
    [0x59, 0x53, 0x44, 0x50] + ([0x00, 0x38] + ([0x00, 0x04] + ([0xc0, 0xa8, 0xfa, 0x14] +
    ([0x00, 0x00, 0x00, 0x00, 0x00, 0x00, 0x00, 0x00, 0x00, 0x00, 0x00, 0x00] +
    ([0x08, 0x00, 0x27, 0x3d, 0xe0, 0x05] + DiscoveryTail)))))

  /** A data section that ends right after its third field lacks the fourth length byte. */
  lemma ThreeFieldsOnly(a: Text, b: Text, c: Text)
    requires |a| < 256 && |b| < 256 && |c| < 256
    ensures ScpDecode(Prefixed(a) + Prefixed(b) + Prefixed(c)) == Err(IndexError)
  {
    var data := Prefixed(a) + Prefixed(b) + Prefixed(c);
    assert data == [] + Prefixed(a) + (Prefixed(b) + Prefixed(c));
    ReadPrefixed([], a, Prefixed(b) + Prefixed(c));
    ReadPrefixed(Prefixed(a), b, Prefixed(c));
    assert data == Prefixed(a) + Prefixed(b) + Prefixed(c) + [];
    ReadPrefixed(Prefixed(a) + Prefixed(b), c, []);
    assert ReadFields(data, 0) == Ok(([], 0));
    ReadFieldsNext(data, 0, [], 0, a, |Prefixed(a)|);
    ReadFieldsNext(data, 1, [] + [a], |Prefixed(a)|, b, |Prefixed(a)| + |Prefixed(b)|);
    ReadFieldsNext(data, 2, [] + [a] + [b], |Prefixed(a)| + |Prefixed(b)|, c, |data|);
    ReadFails(data, 3);
  }

  /** The discoverer's data section holds three of the four strings, so the SCP parser
      runs off its end looking for the fourth length byte. */
  lemma DiscoveryDataShort()
    ensures |DiscoveryData| == 21
    ensures ScpDecode(DiscoveryData) == Err(IndexError)
  {
    var yamaha: seq<byte> := [0x59, 0x61, 0x6d, 0x61, 0x68, 0x61];
    var remote: seq<byte> := [0x52, 0x20, 0x52, 0x65, 0x6d, 0x6f, 0x74, 0x65];
    var id: seq<byte> := [0x59, 0x30, 0x30, 0x30];
    assert DiscoveryData == [|yamaha|] + yamaha + ([|remote|] + remote) + ([|id|] + id);
    AsciiThreeFieldsOnly(yamaha, remote, id);
  }

  /** `ThreeFieldsOnly` for ASCII fields, which are texts. */
  lemma AsciiThreeFieldsOnly(a: seq<byte>, b: seq<byte>, c: seq<byte>)
    requires |a| < 256 && |b| < 256 && |c| < 256
    requires forall i :: 0 <= i < |a| ==> a[i] < 0x80
    requires forall i :: 0 <= i < |b| ==> b[i] < 0x80
    requires forall i :: 0 <= i < |c| ==> c[i] < 0x80
    ensures ScpDecode([|a|] + a + ([|b|] + b) + ([|c|] + c)) == Err(IndexError)
  {
    AsciiUtf8(a);
    AsciiUtf8(b);
    AsciiUtf8(c);
    ThreeFieldsOnly(a, b, c);
  }

  /** Its message-length field, 0x0038 = 56, counts the bytes after it, as `to_bytes`
      would write it. */
  lemma DiscoveryMessageLen()
    ensures |DiscoveryPayload| == 62 && DiscoveryPayload[30..] == DiscoveryTail
    ensures BeU16Value(DiscoveryPayload[4..6]) == 56 == |DiscoveryPayload| - 6
  {
    HeadFields(DiscoveryPayload, [0x59, 0x53, 0x44, 0x50], [0x00, 0x38], [0x00, 0x04], [0xc0, 0xa8, 0xfa, 0x14],
      [0x00, 0x00, 0x00, 0x00, 0x00, 0x00, 0x00, 0x00, 0x00, 0x00, 0x00, 0x00],
      [0x08, 0x00, 0x27, 0x3d, 0xe0, 0x05], DiscoveryTail);
  }

  /** When the data section does not parse, the packet fails with the data section's error,
      whatever its other fixed fields hold, unless its base name already failed to decode. */
  lemma DecodeDataError(packet: seq<byte>, proto: Text, scp: seq<byte>)
    requires |packet| >= 30 && |proto| < 256 && |scp| < 0x1_0000
    requires packet[30..] == Prefixed(proto) + (BeU16(|scp|) + scp)
    requires ScpDecode(scp).Err?
    ensures PacketDecode(packet) ==
      if WellFormedUtf8(packet[0..4]) then Err(ScpDecode(scp).error) else Err(UnicodeDecodeError)
  {
    TailFields(packet, proto, scp);
    BeU16RoundTrip(|scp|);
  }

  /** The protocol name of the payload, "_ypa-scp". */
  const DiscoveryProto: seq<byte> := [0x5f, 0x79, 0x70, 0x61, 0x2d, 0x73, 0x63, 0x70]

  /** "_ypa-scp" is ASCII, hence a text. */
  lemma DiscoveryProtoText()
    ensures WellFormedUtf8(DiscoveryProto) && |DiscoveryProto| == 8
  {
    AsciiUtf8(DiscoveryProto);
  }

  /** The tail is laid out as `to_bytes` lays out a protocol name and a data section. */
  lemma DiscoveryTailLayout()
    ensures |DiscoveryData| == 21
    ensures DiscoveryTail == Prefixed(DiscoveryProto) + (BeU16(|DiscoveryData|) + DiscoveryData)
  {
    assert |DiscoveryData| == 21;
  }

  /** Any packet whose fields after the MAC address are the discoverer's fails to decode:
      with IndexError from the data section, or earlier on a base name that is not UTF-8. */
  lemma DiscoveryTailRejected(packet: seq<byte>)
    requires |packet| >= 30 && packet[30..] == DiscoveryTail
    ensures PacketDecode(packet) ==
      if WellFormedUtf8(packet[0..4]) then Err(IndexError) else Err(UnicodeDecodeError)
  {
    DiscoveryDataShort();
    DiscoveryTailLayout();
    DiscoveryProtoText();
    DecodeDataError(packet, DiscoveryProto, DiscoveryData);
  }

  /** Hence `YSDPPacket.from_bytes` rejects the discoverer's own payload, whose base name
      "YSDP" decodes, with IndexError. */
  lemma DiscoveryPayloadRejected()
    ensures PacketDecode(DiscoveryPayload) == Err(IndexError)
  {
    DiscoveryMessageLen();
    assert DiscoveryPayload[0..4] == [0x59, 0x53, 0x44, 0x50];
    AsciiUtf8(DiscoveryPayload[0..4]);
    DiscoveryTailRejected(DiscoveryPayload);
  }
}
