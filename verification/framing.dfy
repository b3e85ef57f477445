/** Round trips of the codec: one message, a stream of messages, and incomplete input. */
module Framing {
  import opened Options
  import opened Encoding
  import opened Messages

  /** The messages whose own encoding the decoder accepts. A SendReq with data sets flag
      bit 3, which the header decoder rejects; a ConnAck announces itself as a Connect. */
  predicate Legal(m: Message) {
    match m
    case Connect(name, version, _, _, _) => name == PROTOCOL_NAME && version <= PROTOCOL_VERSION
    case ConnAck(_) => false
    case SendReq(_, _, _, _, data) => data.None?
    case SendResp(_, _) => false
    case _ => true
  }

  predicate Compact(gz: Gzip, v: Bytes) {
    SetGzipString(gz, v).Wrote? ==> |SetGzipString(gz, v).value| < 0x8000_0000
  }

  /** The compressed parts are small enough for the `int32_t` casts of their sizes. */
  predicate SizesFit(gz: Gzip, m: Message) {
    && ((m.Connect? || m.SendReq?) ==> Compact(gz, m.payload))
    && (m.SendReq? && m.data.Some? ==> Compact(gz, m.data.value))
  }

  lemma FrameDecodes(t: int, flags: Byte, variable: Bytes, payload: Bytes, data: Bytes, rest: Bytes)
    requires 0 < t < 8 && flags < 16 && |payload| < 0x8000_0000 && |data| < 0x8000_0000
    requires Frame(t, flags, variable, payload, data).Wrote?
    ensures var total := |variable| + |payload| + |data|;
      var r := DecodeHeader(Frame(t, flags, variable, payload, data).value + rest);
      && total <= MAX_PAYLOAD
      && |Frame(t, flags, variable, payload, data).value| == 1 + |EncodedLength(total)| + total
      && 1 <= |EncodedLength(total)| <= 4
      && (flags < 8 && flags % 2 == 0 ==>
        r == HeaderOk(Header(t, flags, total), 1 + |EncodedLength(total)|, variable + payload + data + rest))
      && (flags >= 8 || flags % 2 != 0 ==> r == HeaderThrew(InvalidFlag))
  {
    hide DecodedLength, EncodedLength;
    var total := |variable| + |payload| + |data|;
    var code := EncodedLength(total);
    var body := variable + payload + data;
    var s := Frame(t, flags, variable, payload, data).value + rest;
    assert s == [t * 16 + flags] + (code + (body + rest));
    assert s[0] == t * 16 + flags && s[1..] == code + (body + rest);
    LengthRoundTrip(total, body + rest);
  }

  /** WriteHeader only lets lengths below 2^28 through, and the length it writes is the
      number of bytes that follow it. */
  lemma WrittenLengthIsBodyLength(t: int, flags: Byte, variable: Bytes, payload: Bytes, data: Bytes)
    requires 0 < t < 8 && flags < 16 && |payload| < 0x8000_0000 && |data| < 0x8000_0000
    ensures Frame(t, flags, variable, payload, data).Wrote? <==>
      |variable| + |payload| + |data| < MAX_LENGTH
    ensures Frame(t, flags, variable, payload, data).Wrote? ==>
      var bs := Frame(t, flags, variable, payload, data).value;
      var r := DecodedLength(bs[1..], 0);
      r.Length? && r.value == |r.rest| && r.rest == variable + payload + data
  {
    hide DecodedLength, EncodedLength;
    if Frame(t, flags, variable, payload, data).Wrote? {
      var total := |variable| + |payload| + |data|;
      var bs := Frame(t, flags, variable, payload, data).value;
      var body := variable + payload + data;
      assert bs[1..] == EncodedLength(total) + body;
      LengthRoundTrip(total, body);
    }
  }

  lemma ConnectVariableRead(m: Message, tail: Bytes, left: Uint32)
    requires m.Connect? && |ConnectVariable(m)| <= left < MAX_LENGTH
    ensures var s := ConnectVariable(m) + tail;
      var size := |SetString(m.name)|;
      && |ConnectVariable(m)| == size + 4
      && GetString(s, left) == Got(m.name, s[size..], left - size)
      && s[size..] == [m.version, if m.enableGzip then 128 else 0] + (SetUint16(m.keepAlive) + tail)
  {
    hide DecodedLength, EncodedLength, GetString;
    var s := ConnectVariable(m) + tail;
    var size := |SetString(m.name)|;
    var rest := [m.version, if m.enableGzip then 128 else 0] + (SetUint16(m.keepAlive) + tail);
    assert s == SetString(m.name) + rest;
    assert s[size..] == rest;
    assert |SetString(m.name)| >= |m.name|;
    StringRoundTrip(m.name, rest, left);
  }

  lemma ConnectFixedRead(m: Message, tail: Bytes, left: Uint32)
    requires m.Connect? && left >= 4
    ensures var flags := if m.enableGzip then 128 else 0;
      var s := [m.version, flags] + (SetUint16(m.keepAlive) + tail);
      var p2 := GetUint8(s, left);
      && p2 == Got(m.version, s[1..], left - 1)
      && GetUint8(p2.rest, p2.left) == Got(flags, SetUint16(m.keepAlive) + tail, left - 2)
      && GetUint16(SetUint16(m.keepAlive) + tail, left - 2) == Got(m.keepAlive, tail, left - 4)
  {
    var flags := if m.enableGzip then 128 else 0;
    var s := [m.version, flags] + (SetUint16(m.keepAlive) + tail);
    assert s[1..][1..] == SetUint16(m.keepAlive) + tail;
    Uint16RoundTrip(m.keepAlive, tail, left - 2);
  }

  lemma ConnectBody(gz: Gzip, m: Message, packed: Bytes, rest: Bytes, h: Header)
    requires gz.Inverse() && m.Connect? && SetGzipString(gz, m.payload) == Wrote(packed)
    requires h.remainLen == |ConnectVariable(m)| + |packed| < MAX_LENGTH
    ensures var p := DecodeConnect(gz, h, ConnectVariable(m) + (packed + rest));
      if Legal(m) then p == Got(m, rest, 0) else p.Threw?
  {
    hide DecodedLength, EncodedLength, GetString, GetUint8, GetUint16, GetGzipString, SetString, SetUint16, SetGzipString;
    hide ConnectVariable;
    ConnectVariableRead(m, packed + rest, h.remainLen);
    var left := h.remainLen - |SetString(m.name)|;
    ConnectFixedRead(m, packed + rest, left);
    GzipStringRoundTrip(gz, m.payload, rest, left - 4);
  }

  lemma ConnectRoundTrip(gz: Gzip, m: Message, rest: Bytes)
    requires gz.Inverse() && m.Connect? && SizesFit(gz, m) && Encode(gz, m).Wrote?
    ensures var p := Decode(gz, Encode(gz, m).value + rest);
      if Legal(m) then p == Got(m, rest, 0) else p.Threw?
  {
    hide Frame, DecodeConnect, DecodeHeader, ConnectVariable, SetGzipString, EncodedLength;
    var variable := ConnectVariable(m);
    var packed := SetGzipString(gz, m.payload).value;
    FrameDecodes(CONNECT, 0, variable, packed, [], rest);
    assert variable + packed + [] + rest == variable + (packed + rest);
    ConnectBody(gz, m, packed, rest, Header(CONNECT, 0, |variable| + |packed|));
  }

  lemma SendReqFixedRead(m: Message, tail: Bytes, left: Uint32)
    requires m.SendReq? && |SendReqVariable(m)| <= left < MAX_LENGTH
    ensures var size := |SendReqVariable(m)|;
      var p1 := GetUint16(SendReqVariable(m) + tail, left);
      && p1 == Got(m.id, SetString(m.topic) + tail, left - 2)
      && GetString(SetString(m.topic) + tail, left - 2) == Got(m.topic, tail, left - size)
  {
    hide DecodedLength, EncodedLength, GetString;
    assert SendReqVariable(m) + tail == SetUint16(m.id) + (SetString(m.topic) + tail);
    Uint16RoundTrip(m.id, SetString(m.topic) + tail, left);
    assert |SetString(m.topic)| >= |m.topic|;
    StringRoundTrip(m.topic, tail, left - 2);
  }

  lemma SendReqBody(gz: Gzip, m: Message, packed: Bytes, rest: Bytes, h: Header)
    requires gz.Inverse() && m.SendReq? && m.data.None? && SetGzipString(gz, m.payload) == Wrote(packed)
    requires h.remainLen == |SendReqVariable(m)| + |packed| < MAX_LENGTH && h.flags == m.level * 2
    ensures DecodeSendReq(gz, h, SendReqVariable(m) + (packed + rest)) == Got(m, rest, 0)
  {
    hide DecodeSendReq, DecodedLength, EncodedLength, GetString, GetUint16, GetGzipString, SetGzipString;
    var tail := packed + rest;
    var s := SendReqVariable(m) + tail;
    SendReqFixedRead(m, tail, h.remainLen);
    assert GetGzipString(gz, tail, |packed|) == Got(m.payload, rest, 0) by {
      GzipStringRoundTrip(gz, m.payload, rest, |packed|);
    }
    SendReqAssembled(gz, h, s, m, tail, rest);
  }

  lemma SendReqAssembled(gz: Gzip, h: Header, s: Bytes, m: Message, tail: Bytes, rest: Bytes)
    requires m.SendReq? && m.data.None? && h.flags == m.level * 2
    requires GetUint16(s, h.remainLen).Got? && GetUint16(s, h.remainLen).value == m.id
    requires var p1 := GetUint16(s, h.remainLen);
      var p2 := GetString(p1.rest, p1.left);
      && p2.Got? && p2.value == m.topic && p2.rest == tail
      && GetGzipString(gz, tail, p2.left) == Got(m.payload, rest, 0)
    ensures DecodeSendReq(gz, h, s) == Got(m, rest, 0)
  {
    hide GetString, GetUint16, GetGzipString;
    assert h.flags / 8 == 0 && h.flags / 2 % 4 == m.level;
  }

  lemma SendReqRoundTrip(gz: Gzip, m: Message, rest: Bytes)
    requires gz.Inverse() && m.SendReq? && SizesFit(gz, m) && Encode(gz, m).Wrote?
    ensures var p := Decode(gz, Encode(gz, m).value + rest);
      if Legal(m) then p == Got(m, rest, 0) else p == Threw(InvalidFlag)
  {
    hide Frame, Decode, SendReqVariable, SetGzipString;
    if m.data.None? {
      var variable := SendReqVariable(m);
      var packed := SetGzipString(gz, m.payload).value;
      assert Encode(gz, m) == Frame(SEND_REQ, m.level * 2, variable, packed, []);
      SendReqWithoutData(gz, m, packed, rest);
    } else {
      SendReqWithData(gz, m, rest);
    }
  }

  lemma SendReqWithoutData(gz: Gzip, m: Message, packed: Bytes, rest: Bytes)
    requires gz.Inverse() && m.SendReq? && m.data.None? && SetGzipString(gz, m.payload) == Wrote(packed)
    requires |packed| < 0x8000_0000
    requires Frame(SEND_REQ, m.level * 2, SendReqVariable(m), packed, []).Wrote?
    ensures Decode(gz, Frame(SEND_REQ, m.level * 2, SendReqVariable(m), packed, []).value + rest) == Got(m, rest, 0)
  {
    hide Frame, DecodeSendReq, DecodeHeader, SendReqVariable, SetGzipString, EncodedLength;
    var variable := SendReqVariable(m);
    FrameDecodes(SEND_REQ, m.level * 2, variable, packed, [], rest);
    assert variable + packed + [] + rest == variable + (packed + rest);
    var h := Header(SEND_REQ, m.level * 2, |variable| + |packed|);
    SendReqBody(gz, m, packed, rest, h);
    DecodeViaSendReq(gz, Frame(SEND_REQ, m.level * 2, variable, packed, []).value + rest, h, variable + (packed + rest));
  }

  lemma DecodeViaSendReq(gz: Gzip, s: Bytes, h: Header, body: Bytes)
    requires DecodeHeader(s).HeaderOk? && DecodeHeader(s).header == h && DecodeHeader(s).rest == body
    requires h.msgType == SEND_REQ
    ensures Decode(gz, s) == DecodeSendReq(gz, h, body)
  {
  }

  lemma SendReqWithData(gz: Gzip, m: Message, rest: Bytes)
    requires m.SendReq? && m.data.Some? && SizesFit(gz, m) && Encode(gz, m).Wrote?
    ensures Decode(gz, Encode(gz, m).value + rest) == Threw(InvalidFlag)
  {
    hide Frame, DecodeHeader, SendReqVariable, SetGzipString, EncodedLength;
    var packed := SetGzipString(gz, m.payload).value;
    var packedData := SetGzipData(gz, m.data.value).value;
    FrameDecodes(SEND_REQ, m.level * 2 + 8, SendReqVariable(m), packed, packedData, rest);
    assert DecodeHeader(Encode(gz, m).value + rest) == HeaderThrew(InvalidFlag);
  }

  lemma {:induction false} PingRoundTrip(gz: Gzip, m: Message, rest: Bytes)
    requires m.PingReq? || m.PingResp?
    ensures Encode(gz, m).Wrote? && Decode(gz, Encode(gz, m).value + rest) == Got(m, rest, 0)
  {
    hide DecodeHeader, EncodedLength, DecodedLength;
    var t := if m.PingReq? then PING_REQ else PING_RESP;
    assert Encode(gz, m) == Frame(t, 0, [], [], []);
    FrameDecodes(t, 0, [], [], [], rest);
    assert [] + [] + [] + rest == rest;
  }

  lemma {:induction false} DisconnectRoundTrip(gz: Gzip, m: Message, rest: Bytes)
    requires m.Disconnect?
    ensures Encode(gz, m).Wrote? && Decode(gz, Encode(gz, m).value + rest) == Got(m, rest, 0)
  {
    hide DecodeHeader, EncodedLength, DecodedLength;
    assert Encode(gz, m) == Frame(DISCONNECT, 0, [m.kind], [], []);
    FrameDecodes(DISCONNECT, 0, [m.kind], [], [], rest);
    var s := [m.kind] + [] + [] + rest;
    assert s == [m.kind] + rest && s[1..] == rest;
    assert DecodeDisconnect(Header(DISCONNECT, 0, 1), s) == Got(m, rest, 0);
  }

  lemma ZeroLength()
    ensures EncodedLength(0) == [0]
  {
  }

  lemma ConnAckIsRefused(gz: Gzip, m: Message, rest: Bytes)
    requires m.ConnAck?
    ensures Encode(gz, m).Wrote? && Decode(gz, Encode(gz, m).value + rest) == Threw(InvalidProName)
  {
    hide DecodeHeader, EncodedLength;
    assert Encode(gz, m) == Frame(CONNECT, 0, [0, m.code], [], []);
    FrameDecodes(CONNECT, 0, [0, m.code], [], [], rest);
    var s := [0, m.code] + [] + [] + rest;
    assert s == EncodedLength(0) + ([m.code] + rest) by { ZeroLength(); }
    LengthRoundTrip(0, [m.code] + rest);
    assert GetString(s, 2).Got? && GetString(s, 2).value == [];
    assert DecodeConnect(gz, Header(CONNECT, 0, 2), s) == Threw(InvalidProName);
  }

  /** Decoding what was encoded, with anything behind it, gives the message back and leaves
      the rest exactly for the legal messages; for all others it throws. */
  lemma MessageRoundTripIff(gz: Gzip, m: Message, rest: Bytes)
    requires gz.Inverse() && !m.SendResp? && SizesFit(gz, m) && Encode(gz, m).Wrote?
    ensures Legal(m) <==> Decode(gz, Encode(gz, m).value + rest) == Got(m, rest, 0)
    ensures !Legal(m) ==> Decode(gz, Encode(gz, m).value + rest).Threw?
  {
    hide Encode, Decode, SizesFit;
    if m.Connect? {
      ConnectRoundTrip(gz, m, rest);
    } else if m.SendReq? {
      SendReqRoundTrip(gz, m, rest);
    } else if m.Disconnect? {
      DisconnectRoundTrip(gz, m, rest);
    } else if m.ConnAck? {
      ConnAckIsRefused(gz, m, rest);
    } else {
      PingRoundTrip(gz, m, rest);
    }
  }

  // ----- streams -----

  /** A message as it stands on the wire. The two that only a server sends, and whose encoders here do
      not write them, are framed like all others. */
  function OnWire(gz: Gzip, m: Message): Written<Bytes> {
    match m
    case ConnAck(code) => Frame(CONN_ACK, 0, [0, code], [], [])
    case SendResp(id, payload) =>
      var packed :- SetGzipString(gz, payload);
      Frame(SEND_RESP, 0, SetUint16(id), packed, [])
    case _ => Encode(gz, m)
  }

  /** What a reader accepts of that. */
  predicate Readable(m: Message) {
    Legal(m) || m.SendResp? || (m.ConnAck? && m.code < RET_CODE_INVALID)
  }

  predicate WireFits(gz: Gzip, m: Message) {
    SizesFit(gz, m) && (m.SendResp? ==> Compact(gz, m.payload))
  }

  /** A response is read as what it answers and with the payload that was packed. */
  lemma SendRespDecodes(gz: Gzip, m: Message, rest: Bytes)
    requires gz.Inverse() && m.SendResp? && WireFits(gz, m) && OnWire(gz, m).Wrote?
    ensures Decode(gz, OnWire(gz, m).value + rest) == Got(m, rest, 0)
  {
    hide Frame, DecodeHeader, SetGzipString, GetGzipString, EncodedLength, GetUint16, SetUint16;
    var variable := SetUint16(m.id);
    var packed := SetGzipString(gz, m.payload).value;
    FrameDecodes(SEND_RESP, 0, variable, packed, [], rest);
    assert variable + packed + [] + rest == variable + (packed + rest);
    assert |variable| == 2 by { Uint16Size(m.id); }
    Uint16RoundTrip(m.id, packed + rest, 2 + |packed|);
    GzipStringRoundTrip(gz, m.payload, rest, |packed|);
  }

  lemma Uint16Size(v: Uint16)
    ensures |SetUint16(v)| == 2
  {
  }

  /** The answer to a login is accepted with its own return code iff that is a known one. */
  lemma ConnAckDecodes(gz: Gzip, flags: Byte, code: Byte, rest: Bytes)
    ensures Frame(CONN_ACK, 0, [flags, code], [], []).Wrote?
    ensures Decode(gz, Frame(CONN_ACK, 0, [flags, code], [], []).value + rest) ==
      if flags != 0 then Threw(InvalidFlag)
      else if code < 7 then Got(ConnAck(code), rest, 0)
      else Threw(BadReturnCode)
  {
    hide DecodeHeader, EncodedLength;
    FrameDecodes(CONN_ACK, 0, [flags, code], [], [], rest);
    var s := [flags, code] + [] + [] + rest;
    assert s == [flags, code] + rest && s[1..] == [code] + rest && s[1..][1..] == rest;
  }

  lemma OnWireDecodes(gz: Gzip, m: Message, rest: Bytes)
    requires gz.Inverse() && Readable(m) && WireFits(gz, m) && OnWire(gz, m).Wrote?
    ensures Decode(gz, OnWire(gz, m).value + rest) == Got(m, rest, 0)
  {
    hide Decode, Encode, Frame;
    if m.SendResp? { SendRespDecodes(gz, m, rest); }
    else if m.ConnAck? { ConnAckDecodes(gz, 0, m.code, rest); }
    else { MessageRoundTripIff(gz, m, rest); }
  }

  /** The bytes of several messages, one after the other. */
  function EncodeAll(gz: Gzip, ms: seq<Message>): Written<Bytes> {
    if ms == [] then Wrote([])
    else
      var first :- OnWire(gz, ms[0]);
      var others :- EncodeAll(gz, ms[1..]);
      Wrote(first + others)
  }

  /** `n` calls of a decoder on one reader. */
  function Repeat<T>(decode: Bytes -> Parsed<T>, s: Bytes, n: nat): Parsed<seq<T>>
    decreases n
  {
    if n == 0 then Got([], s, 0)
    else
      match decode(s)
      case Threw(e) => Threw(e)
      case Undefined => Undefined
      case Got(m, rest, _) =>
        match Repeat(decode, rest, n - 1)
        case Threw(e) => Threw(e)
        case Undefined => Undefined
        case Got(ms, rest', left) => Got([m] + ms, rest', left)
  }

  function DecodeMessage(gz: Gzip): Bytes -> Parsed<Message> {
    s => Decode(gz, s)
  }

  /** A stream of messages on the wire, the server's included, decodes to those messages, in order, and
      to nothing more. */
  lemma {:induction false} StreamRoundTrip(gz: Gzip, ms: seq<Message>, rest: Bytes)
    requires gz.Inverse() && forall m :: m in ms ==> Readable(m) && WireFits(gz, m)
    requires EncodeAll(gz, ms).Wrote?
    ensures Repeat(DecodeMessage(gz), EncodeAll(gz, ms).value + rest, |ms|) == Got(ms, rest, 0)
  {
    hide Decode, OnWire, Readable, WireFits;
    if ms == [] {
      assert [] + rest == rest;
    } else {
      var first := OnWire(gz, ms[0]).value;
      var others := EncodeAll(gz, ms[1..]).value;
      assert EncodeAll(gz, ms).value + rest == first + (others + rest);
      assert ms[0] in ms;
      OnWireDecodes(gz, ms[0], others + rest);
      StreamRoundTrip(gz, ms[1..], rest);
      assert [ms[0]] + ms[1..] == ms;
    }
  }

  // ----- incomplete input -----

  lemma GetGzipStringIgnoresSuffix(gz: Gzip, s: Bytes, t: Bytes, left: Uint32)
    ensures var p := GetGzipString(gz, s, left);
      p.Got? ==> GetGzipString(gz, s + t, left) == Got(p.value, p.rest + t, p.left)
  {
    GetStringIgnoresSuffix(s, t, left);
  }

  lemma ConnectIgnoresSuffix(gz: Gzip, h: Header, s: Bytes, t: Bytes)
    ensures var p := DecodeConnect(gz, h, s);
      p.Got? ==> DecodeConnect(gz, h, s + t) == Got(p.value, p.rest + t, p.left)
  {
    hide GetString, GetUint8, GetUint16, GetGzipString;
    if DecodeConnect(gz, h, s).Got? {
      var p1 := GetString(s, h.remainLen);
      GetStringIgnoresSuffix(s, t, h.remainLen);
      var p2 := GetUint8(p1.rest, p1.left);
      GetUintsIgnoreSuffix(p1.rest, t, p1.left);
      var p3 := GetUint8(p2.rest, p2.left);
      GetUintsIgnoreSuffix(p2.rest, t, p2.left);
      var p4 := GetUint16(p3.rest, p3.left);
      GetUintsIgnoreSuffix(p3.rest, t, p3.left);
      GetGzipStringIgnoresSuffix(gz, p4.rest, t, p4.left);
    }
  }

  lemma SendReqIgnoresSuffix(gz: Gzip, h: Header, s: Bytes, t: Bytes)
    requires h.flags < 8
    ensures var p := DecodeSendReq(gz, h, s);
      p.Got? ==> DecodeSendReq(gz, h, s + t) == Got(p.value, p.rest + t, p.left)
  {
    hide GetString, GetUint16, GetGzipString;
    if DecodeSendReq(gz, h, s).Got? {
      var p1 := GetUint16(s, h.remainLen);
      GetUintsIgnoreSuffix(s, t, h.remainLen);
      var p2 := GetString(p1.rest, p1.left);
      GetStringIgnoresSuffix(p1.rest, t, p1.left);
      GetGzipStringIgnoresSuffix(gz, p2.rest, t, p2.left);
    }
  }

  lemma BodyIgnoresSuffix(gz: Gzip, h: Header, s: Bytes, t: Bytes)
    requires 0 < h.msgType < 8 && h.flags < 8
    ensures var p := DecodeBody(gz, h, s);
      p.Got? ==> DecodeBody(gz, h, s + t) == Got(p.value, p.rest + t, p.left)
  {
    hide DecodeConnect, DecodeConnAck, DecodeSendReq, DecodeSendResp;
    if h.msgType == CONNECT {
      ConnectIgnoresSuffix(gz, h, s, t);
    } else if h.msgType == CONN_ACK {
      ConnAckIgnoresSuffix(h, s, t);
    } else if h.msgType == DISCONNECT {
      GetUintsIgnoreSuffix(s, t, h.remainLen);
    } else if h.msgType == SEND_REQ {
      SendReqIgnoresSuffix(gz, h, s, t);
    } else if h.msgType == SEND_RESP {
      SendRespIgnoresSuffix(gz, h, s, t);
    }
  }

  lemma ConnAckIgnoresSuffix(h: Header, s: Bytes, t: Bytes)
    ensures var p := DecodeConnAck(h, s);
      p.Got? ==> DecodeConnAck(h, s + t) == Got(p.value, p.rest + t, p.left)
  {
    hide GetUint8;
    GetUintsIgnoreSuffix(s, t, h.remainLen);
    var p := GetUint8(s, h.remainLen);
    if p.Got? { GetUintsIgnoreSuffix(p.rest, t, p.left); }
  }

  lemma SendRespIgnoresSuffix(gz: Gzip, h: Header, s: Bytes, t: Bytes)
    ensures var p := DecodeSendResp(gz, h, s);
      p.Got? ==> DecodeSendResp(gz, h, s + t) == Got(p.value, p.rest + t, p.left)
  {
    hide GetUint16, GetGzipString;
    GetUintsIgnoreSuffix(s, t, h.remainLen);
    var p := GetUint16(s, h.remainLen);
    if p.Got? { GetGzipStringIgnoresSuffix(gz, p.rest, t, p.left); }
  }

  /** Bytes that arrive later never change a message that was accepted. */
  lemma DecodeIgnoresSuffix(gz: Gzip, s: Bytes, t: Bytes)
    ensures Decode(gz, s).Got? ==> Decode(gz, s + t) == Got(Decode(gz, s).value, Decode(gz, s).rest + t, 0)
  {
    hide DecodeBody, DecodedLength, BodySize;
    if Decode(gz, s).Got? {
      var r := DecodeHeader(s);
      HeaderConsumption(s);
      assert (s + t)[0] == s[0] && (s + t)[1..] == s[1..] + t;
      LengthIgnoresSuffix(s[1..], t, 0);
      assert DecodeHeader(s + t) == HeaderOk(r.header, r.size, r.rest + t);
      BodyIgnoresSuffix(gz, r.header, r.rest, t);
      BodyTakes(gz, r.header, r.rest);
    }
  }

  /** No proper prefix of a message on the wire is accepted as a message. */
  lemma IncompleteIsNotAccepted(gz: Gzip, m: Message, k: nat)
    requires gz.Inverse() && Readable(m) && WireFits(gz, m) && OnWire(gz, m).Wrote?
    requires k < |OnWire(gz, m).value|
    ensures !Decode(gz, OnWire(gz, m).value[..k]).Got?
  {
    hide OnWire, Decode;
    var bytes := OnWire(gz, m).value;
    if Decode(gz, bytes[..k]).Got? {
      DecodeIgnoresSuffix(gz, bytes[..k], bytes[k..]);
      assert bytes[..k] + bytes[k..] == bytes + [];
      OnWireDecodes(gz, m, []);
      assert false;
    }
  }

  // ----- the wire itself -----

  /** A login, byte by byte. */
  lemma {:induction false} ConnectOnWire(gz: Gzip)
    requires gz.compress([0x41]) == Some([0xBB, 0xCC])
    ensures Encode(gz, Connect([0x47, 0x4F, 0x53, 0x4F, 0x43], 1, true, 300, [0x41])) ==
      Wrote([0x10, 13, 5, 0x47, 0x4F, 0x53, 0x4F, 0x43, 1, 128, 1, 44, 2, 0xBB, 0xCC])
  {
    Packed(gz, [0x41], [0xBB, 0xCC], [2, 0xBB, 0xCC]);
    ConnectBytes();
    hide Frame, SetGzipString, ConnectVariable;
    ShortFrame(CONNECT, 0, [5, 0x47, 0x4F, 0x53, 0x4F, 0x43, 1, 128, 1, 44], [2, 0xBB, 0xCC], [],
               [0x10, 13, 5, 0x47, 0x4F, 0x53, 0x4F, 0x43, 1, 128, 1, 44, 2, 0xBB, 0xCC]);
  }

  /** Requests, byte by byte. */
  lemma {:induction false} SendReqOnWire(gz: Gzip)
    requires gz.compress([0x41]) == Some([0xBB]) && gz.compress([0x42]) == Some([0xDD])
    ensures Encode(gz, SendReq(2, 258, [0x54, 0x55], [0x41], None)) == Wrote([0x64, 7, 1, 2, 2, 0x54, 0x55, 1, 0xBB])
    ensures Encode(gz, SendReq(1, 5, [], [0x41], Some([0x42]))) == Wrote([0x6A, 7, 0, 5, 0, 1, 0xBB, 1, 0xDD])
    ensures Encode(gz, SendReq(1, 5, [], [0x41], Some([]))) == Wrote([0x6A, 5, 0, 5, 0, 1, 0xBB])
  {
    Packed(gz, [0x41], [0xBB], [1, 0xBB]);
    Packed(gz, [0x42], [0xDD], [1, 0xDD]);
    SendReqBytes();
    hide Frame, SetGzipString, SendReqVariable;
    ShortFrame(SEND_REQ, 4, [1, 2, 2, 0x54, 0x55], [1, 0xBB], [], [0x64, 7, 1, 2, 2, 0x54, 0x55, 1, 0xBB]);
    ShortFrame(SEND_REQ, 10, [0, 5, 0], [1, 0xBB], [1, 0xDD], [0x6A, 7, 0, 5, 0, 1, 0xBB, 1, 0xDD]);
    ShortFrame(SEND_REQ, 10, [0, 5, 0], [1, 0xBB], [], [0x6A, 5, 0, 5, 0, 1, 0xBB]);
  }

  lemma ConnectBytes()
    ensures ConnectVariable(Connect([0x47, 0x4F, 0x53, 0x4F, 0x43], 1, true, 300, [0x41])) ==
      [5, 0x47, 0x4F, 0x53, 0x4F, 0x43, 1, 128, 1, 44]
  {
  }

  lemma SendReqBytes()
    ensures SendReqVariable(SendReq(2, 258, [0x54, 0x55], [0x41], None)) == [1, 2, 2, 0x54, 0x55]
    ensures forall data :: SendReqVariable(SendReq(1, 5, [], [0x41], data)) == [0, 5, 0]
  {
  }

  /** The short messages, and the two of a server. */
  lemma {:induction false} OthersOnWire(gz: Gzip)
    requires gz.compress([0x41]) == Some([0xBB])
    ensures Encode(gz, PingReq) == Wrote([0x30, 0]) && Encode(gz, PingResp) == Wrote([0x40, 0])
    ensures Encode(gz, Disconnect(3)) == Wrote([0x50, 1, 3])
    ensures OnWire(gz, ConnAck(3)) == Wrote([0x20, 2, 0, 3])
    ensures OnWire(gz, SendResp(258, [0x41])) == Wrote([0x70, 4, 1, 2, 1, 0xBB])
  {
    Packed(gz, [0x41], [0xBB], [1, 0xBB]);
    assert SetUint16(258) == [1, 2];
    hide Frame, SetGzipString, SetUint16;
    ShortFrame(PING_REQ, 0, [], [], [], [0x30, 0]);
    ShortFrame(PING_RESP, 0, [], [], [], [0x40, 0]);
    ShortFrame(DISCONNECT, 0, [3], [], [], [0x50, 1, 3]);
    ShortFrame(CONN_ACK, 0, [0, 3], [], [], [0x20, 2, 0, 3]);
    ShortFrame(SEND_RESP, 0, [1, 2], [1, 0xBB], [], [0x70, 4, 1, 2, 1, 0xBB]);
  }

  lemma Packed(gz: Gzip, v: Bytes, packed: Bytes, field: Bytes)
    requires gz.compress(v) == Some(packed) && |packed| < 128 && field == [|packed|] + packed
    ensures SetGzipString(gz, v) == Wrote(field)
  {
    assert EncodedLength(|packed| % WORD) == [|packed|];
  }

  lemma ShortFrame(t: int, flags: Byte, variable: Bytes, payload: Bytes, data: Bytes, bytes: Bytes)
    requires 0 < t < 8 && flags < 16 && |variable| + |payload| + |data| < 128
    requires bytes == [t * 16 + flags, |variable| + |payload| + |data|] + (variable + payload + data)
    ensures Frame(t, flags, variable, payload, data) == Wrote(bytes)
  {
    var total := |variable| + |payload| + |data|;
    assert EncodedLength(total) == [total];
    var head := [t * 16 + flags] + [total];
    assert EncodeHeader(Header(t, flags, total)) == Wrote(head);
    assert head + variable + payload + data == bytes;
  }
}
