/** Fixed header and messages of packet/fix_header.cpp, packet/message_base.cpp,
    packet/message.cpp and packet/message_manager.cpp, with the theorems about framing. */
module Messages {
  import opened Options
  import opened Encoding

  const PROTOCOL_NAME: Bytes := [0x47, 0x4F, 0x53, 0x4F, 0x43]  // "GOSOC"
  const PROTOCOL_VERSION := 1
  const MAX_PAYLOAD := MAX_LENGTH - 1
  const RET_CODE_INVALID := 7

  // MessageType, packet/fix_header.hpp
  const CONNECT := 1
  const CONN_ACK := 2
  const PING_REQ := 3
  const PING_RESP := 4
  const DISCONNECT := 5
  const SEND_REQ := 6
  const SEND_RESP := 7

  datatype Header = Header(msgType: int, flags: Byte, remainLen: Uint32)

  datatype Message =
    | Connect(name: Bytes, version: Byte, enableGzip: bool, keepAlive: Uint16, payload: Bytes)
    | ConnAck(code: Byte)
    | PingReq
    | PingResp
    | Disconnect(kind: Byte)
    | SendReq(level: Level, id: Uint16, topic: Bytes, payload: Bytes, data: Option<Bytes>)
    | SendResp(id: Uint16, payload: Bytes)

  type Level = n: int | 0 <= n < 4

  // ----- encoding -----

  /** FixHeader::Encode. */
  function EncodeHeader(h: Header): Written<Bytes> {
    if h.msgType <= 0 || h.msgType >= 8 then Failed(BadMsgType)
    else Wrote([h.msgType * 16 + h.flags % 16] + EncodedLength(h.remainLen))
  }

  /** MessageBase::WriteHeader, plus the payload and data the callers append behind it. */
  function Frame(msgType: int, flags: Byte, variable: Bytes, payload: Bytes, data: Bytes): Written<Bytes> {
    var total := |variable| + ToInt32(|payload|) + ToInt32(|data|);
    if total > MAX_PAYLOAD then Failed(MsgTooLong)
    else
      var head :- EncodeHeader(Header(msgType, flags, ToInt32(total) % WORD));
      Wrote(head + variable + payload + data)
  }

  function ConnectVariable(m: Message): Bytes
    requires m.Connect?
  {
    SetString(m.name) + [m.version] + [if m.enableGzip then 128 else 0] + SetUint16(m.keepAlive)
  }

  function SendReqVariable(m: Message): Bytes
    requires m.SendReq?
  {
    SetUint16(m.id) + SetString(m.topic)
  }

  function EncodeConnect(gz: Gzip, m: Message): Written<Bytes>
    requires m.Connect?
  {
    var packed :- SetGzipString(gz, m.payload);
    Frame(CONNECT, 0, ConnectVariable(m), packed, [])
  }

  function EncodeSendReq(gz: Gzip, m: Message): Written<Bytes>
    requires m.SendReq?
  {
    var packed :- SetGzipString(gz, m.payload);
    var packedData :- if m.data.Some? then SetGzipData(gz, m.data.value) else Wrote([]);
    Frame(SEND_REQ, m.level * 2 + (if m.data.Some? then 8 else 0), SendReqVariable(m), packed, packedData)
  }

  /** SendResp builds its header but hands only the payload to the writer. */
  function EncodeSendResp(gz: Gzip, m: Message): Written<Bytes>
    requires m.SendResp?
  {
    var packed :- SetGzipString(gz, m.payload);
    var _ :- Frame(SEND_RESP, 0, SetUint16(m.id), packed, []);
    Wrote(packed)
  }

  /** The `Encode` methods. ConnAck's constructor sets the type to Connect. */
  function Encode(gz: Gzip, m: Message): Written<Bytes> {
    match m
    case Connect(_, _, _, _, _) => EncodeConnect(gz, m)
    case ConnAck(code) => Frame(CONNECT, 0, [0, code], [], [])
    case PingReq => Frame(PING_REQ, 0, [], [], [])
    case PingResp => Frame(PING_RESP, 0, [], [], [])
    case Disconnect(kind) => Frame(DISCONNECT, 0, [kind], [], [])
    case SendReq(_, _, _, _, _) => EncodeSendReq(gz, m)
    case SendResp(_, _) => EncodeSendResp(gz, m)
  }

  // ----- decoding -----

  datatype HeaderRead = HeaderOk(header: Header, size: nat, rest: Bytes) | HeaderThrew(exc: Exc)

  /** FixHeader::Decode. A refused length becomes 2^32-1, without an exception. */
  function DecodeHeader(s: Bytes): HeaderRead {
    if s == [] then HeaderThrew(SocketClose)
    else if s[0] / 16 <= 0 || s[0] / 16 >= 8 then HeaderThrew(BadMsgType)
    else if s[0] % 16 / 8 != 0 || s[0] % 2 != 0 then HeaderThrew(InvalidFlag)
    else match DecodedLength(s[1..], 0)
         case CutOff => HeaderThrew(SocketClose)
         case BadLength(rest) => HeaderOk(Header(s[0] / 16, s[0] % 16, WORD - 1), 5, rest)
         case Length(n, k, rest) => HeaderOk(Header(s[0] / 16, s[0] % 16, n % WORD), 1 + k, rest)
  }

  function Finish(m: Message, rest: Bytes, left: Uint32): Parsed<Message> {
    if left != 0 then Threw(MsgTooLong) else Got(m, rest, left)
  }

  function DecodeConnect(gz: Gzip, h: Header, s: Bytes): Parsed<Message> {
    var (name, s1, left1) :- GetString(s, h.remainLen);
    if name != PROTOCOL_NAME then Threw(InvalidProName) else
    var (version, s2, left2) :- GetUint8(s1, left1);
    if version > PROTOCOL_VERSION then Threw(InvalidProVersion) else
    var (flags, s3, left3) :- GetUint8(s2, left2);
    if flags != 0 && flags != 128 then Threw(InvalidFlag) else
    var (keepAlive, s4, left4) :- GetUint16(s3, left3);
    var (payload, s5, left5) :- GetGzipString(gz, s4, left4);
    Finish(Connect(name, version, flags >= 128, keepAlive, payload), s5, left5)
  }

  function DecodeConnAck(h: Header, s: Bytes): Parsed<Message> {
    var (flags, s1, left1) :- GetUint8(s, h.remainLen);
    if flags != 0 then Threw(InvalidFlag) else
    var (code, s2, left2) :- GetUint8(s1, left1);
    if code >= RET_CODE_INVALID then Threw(BadReturnCode) else
    Finish(ConnAck(code), s2, left2)
  }

  function DecodeDisconnect(h: Header, s: Bytes): Parsed<Message> {
    var (kind, s1, left1) :- GetUint8(s, h.remainLen);
    Finish(Disconnect(kind), s1, left1)
  }

  function DecodeSendReq(gz: Gzip, h: Header, s: Bytes): Parsed<Message> {
    var (id, s1, left1) :- GetUint16(s, h.remainLen);
    var (topic, s2, left2) :- GetString(s1, left1);
    var (payload, s3, left3) :- GetGzipString(gz, s2, left2);
    if h.flags / 8 != 0 then
      var (data, s4, left4) :- GetGzipString(gz, s3, left3);
      Finish(SendReq(h.flags / 2 % 4, id, topic, payload, Some(data)), s4, left4)
    else
      Finish(SendReq(h.flags / 2 % 4, id, topic, payload, None), s3, left3)
  }

  function DecodeSendResp(gz: Gzip, h: Header, s: Bytes): Parsed<Message> {
    var (id, s1, left1) :- GetUint16(s, h.remainLen);
    var (payload, s2, left2) :- GetGzipString(gz, s1, left1);
    Finish(SendResp(id, payload), s2, left2)
  }

  function DecodeBody(gz: Gzip, h: Header, s: Bytes): Parsed<Message>
    requires 0 < h.msgType < 8
  {
    if h.msgType == CONNECT then DecodeConnect(gz, h, s)
    else if h.msgType == CONN_ACK then DecodeConnAck(h, s)
    else if h.msgType == PING_REQ then Finish(PingReq, s, h.remainLen)
    else if h.msgType == PING_RESP then Finish(PingResp, s, h.remainLen)
    else if h.msgType == DISCONNECT then DecodeDisconnect(h, s)
    else if h.msgType == SEND_REQ then DecodeSendReq(gz, h, s)
    else DecodeSendResp(gz, h, s)
  }

  /** MessageManager::DecodeMessage. */
  function Decode(gz: Gzip, s: Bytes): Parsed<Message> {
    match DecodeHeader(s)
    case HeaderThrew(e) => Threw(e)
    case HeaderOk(h, _, rest) => DecodeBody(gz, h, rest)
  }

  // ----- exact consumption in spite of the wrapping counter -----

  lemma HeaderConsumption(s: Bytes)
    requires DecodeHeader(s).HeaderOk?
    ensures var r := DecodeHeader(s);
      && 2 <= r.size <= 5 && r.size <= |s| && r.rest == s[r.size..] && 0 < r.header.msgType < 8
      && (r.header.remainLen < MAX_LENGTH || (r.header.remainLen == WORD - 1 && r.size == 5))
      && (r.header.remainLen == WORD - 1 <==> Continued(s[1..], 4))
      && r.header.flags < 8 && r.header.flags % 2 == 0
  {
    hide DecodedLength;
    LengthConsumption(s[1..]);
    var r := DecodeHeader(s);
    assert s[1..][r.size - 1..] == s[r.size..];
  }

  /** The bytes a body of each type takes, when it is accepted. */
  function BodySize(h: Header, s: Bytes): nat {
    if h.msgType == CONNECT then
      var n := FieldSize(s);
      n + 4 + FieldSize(if n + 4 <= |s| then s[n + 4..] else [])
    else if h.msgType == CONN_ACK then 2
    else if h.msgType == DISCONNECT then 1
    else if h.msgType == SEND_REQ then
      var n := 2 + FieldSize(if 2 <= |s| then s[2..] else []);
      n + FieldSize(if n <= |s| then s[n..] else [])
    else if h.msgType == SEND_RESP then 2 + FieldSize(if 2 <= |s| then s[2..] else [])
    else 0
  }

  lemma ConnectShape(gz: Gzip, h: Header, s: Bytes)
    ensures var r := DecodeConnect(gz, h, s);
      r.Got? || r.Undefined? ==>
        var p1 := GetString(s, h.remainLen);
        p1.Undefined? || (p1.Got? &&
        var p2 := GetUint8(p1.rest, p1.left);
        p2.Got? && var p3 := GetUint8(p2.rest, p2.left);
        p3.Got? && var p4 := GetUint16(p3.rest, p3.left);
        p4.Got? && var p5 := GetGzipString(gz, p4.rest, p4.left);
        (p5.Got? || p5.Undefined?)
        && (r.Got? ==> p5.Got? && r.rest == p5.rest && r.left == p5.left == 0)
        && (r.Undefined? ==> p1.value == PROTOCOL_NAME && p5.Undefined?))
    ensures DecodeConnect(gz, h, s).Got? ==> GetString(s, h.remainLen).Got?
  {
    hide GetString, GetGzipString;
  }

  lemma FourBytes(s: Bytes, left: Uint32)
    requires var p2 := GetUint8(s, left);
      p2.Got? && var p3 := GetUint8(p2.rest, p2.left);
      p3.Got? && GetUint16(p3.rest, p3.left).Got?
    ensures var p2 := GetUint8(s, left);
      var p3 := GetUint8(p2.rest, p2.left);
      var p4 := GetUint16(p3.rest, p3.left);
      Moved(s, left, 4, p4.rest, p4.left) && p4.left == left - 4
  {
    var p2 := GetUint8(s, left);
    var p3 := GetUint8(p2.rest, p2.left);
    assert GetUint16(p3.rest, p3.left).rest == s[4..];
  }

  lemma ConnectTakes(gz: Gzip, h: Header, s: Bytes)
    requires h.msgType == CONNECT && DecodeConnect(gz, h, s).Got?
    ensures Took(s, h.remainLen, DecodeConnect(gz, h, s), BodySize(h, s)) && BodySize(h, s) < WORD - 1
    ensures DecodeConnect(gz, h, s).left == 0
  {
    hide DecodeConnect, GetString, GetGzipString, GetUint8, GetUint16, FieldSize;
    ConnectShape(gz, h, s);
    var p1 := GetString(s, h.remainLen);
    var p2 := GetUint8(p1.rest, p1.left);
    var p3 := GetUint8(p2.rest, p2.left);
    var p4 := GetUint16(p3.rest, p3.left);
    var p5 := GetGzipString(gz, p4.rest, p4.left);
    FourBytes(p1.rest, p1.left);
    var n := FieldSize(s);
    GetStringTakes(s, h.remainLen);
    GetGzipStringTakes(gz, p4.rest, p4.left);
    assert Moved(s, h.remainLen, n + 4, p4.rest, p4.left) by {
      MovedTwice(s, h.remainLen, n, p1.rest, p1.left, 4, p4.rest, p4.left);
    }
    assert Moved(s, h.remainLen, BodySize(h, s), p5.rest, p5.left) by {
      MovedTwice(s, h.remainLen, n + 4, p4.rest, p4.left, FieldSize(p4.rest), p5.rest, p5.left);
    }
  }

  lemma SendReqPrefixTakes(gz: Gzip, s: Bytes, remain: Uint32)
    requires GetUint16(s, remain).Got?
    requires var p1 := GetUint16(s, remain);
      GetString(p1.rest, p1.left).Got? && var p2 := GetString(p1.rest, p1.left);
      GetGzipString(gz, p2.rest, p2.left).Got?
    ensures var p1 := GetUint16(s, remain);
      var p2 := GetString(p1.rest, p1.left);
      var n := 2 + FieldSize(p1.rest);
      var m := n + FieldSize(p2.rest);
      && p1.rest == s[2..] && n <= |s| && p2.rest == s[n..] && m < 2 * MAX_LENGTH + 10
      && Took(s, remain, GetGzipString(gz, p2.rest, p2.left), m)
  {
    var p1 := GetUint16(s, remain);
    var p2 := GetString(p1.rest, p1.left);
    var p3 := GetGzipString(gz, p2.rest, p2.left);
    var n := 2 + FieldSize(p1.rest);
    assert Moved(s, remain, n, p2.rest, p2.left) && n < MAX_LENGTH + 6 by {
      GetUintsTake(s, remain);
      GetStringTakes(p1.rest, p1.left);
      MovedTwice(s, remain, 2, p1.rest, p1.left, FieldSize(p1.rest), p2.rest, p2.left);
    }
    GetGzipStringTakes(gz, p2.rest, p2.left);
    MovedTwice(s, remain, n, p2.rest, p2.left, FieldSize(p2.rest), p3.rest, p3.left);
  }

  lemma SendReqShape(gz: Gzip, h: Header, s: Bytes)
    requires h.flags < 8 && DecodeSendReq(gz, h, s).Got?
    ensures GetUint16(s, h.remainLen).Got?
    ensures var p1 := GetUint16(s, h.remainLen);
      GetString(p1.rest, p1.left).Got? && var p2 := GetString(p1.rest, p1.left);
      GetGzipString(gz, p2.rest, p2.left).Got? && var p3 := GetGzipString(gz, p2.rest, p2.left);
      DecodeSendReq(gz, h, s).rest == p3.rest && DecodeSendReq(gz, h, s).left == p3.left == 0
  {
    hide GetString, GetGzipString, GetUint16;
  }

  lemma SendReqTakes(gz: Gzip, h: Header, s: Bytes)
    requires h.msgType == SEND_REQ && h.flags < 8 && DecodeSendReq(gz, h, s).Got?
    ensures Took(s, h.remainLen, DecodeSendReq(gz, h, s), BodySize(h, s)) && BodySize(h, s) < WORD - 1
    ensures DecodeSendReq(gz, h, s).left == 0
  {
    hide DecodeSendReq, GetString, GetGzipString, GetUint16, FieldSize;
    SendReqShape(gz, h, s);
    SendReqPrefixTakes(gz, s, h.remainLen);
    var p1 := GetUint16(s, h.remainLen);
    var p2 := GetString(p1.rest, p1.left);
    assert BodySize(h, s) == 2 + FieldSize(p1.rest) + FieldSize(p2.rest);
  }

  lemma SendRespTakes(gz: Gzip, h: Header, s: Bytes)
    requires h.msgType == SEND_RESP && DecodeSendResp(gz, h, s).Got?
    ensures Took(s, h.remainLen, DecodeSendResp(gz, h, s), BodySize(h, s)) && BodySize(h, s) < WORD - 1
    ensures DecodeSendResp(gz, h, s).left == 0
  {
    var p1 := GetUint16(s, h.remainLen);
    var p2 := GetGzipString(gz, p1.rest, p1.left);
    GetUintsTake(s, h.remainLen);
    GetGzipStringTakes(gz, p1.rest, p1.left);
    MovedTwice(s, h.remainLen, 2, p1.rest, p1.left, FieldSize(p1.rest), p2.rest, p2.left);
  }

  lemma ConnAckTakes(h: Header, s: Bytes)
    requires h.msgType == CONN_ACK && DecodeConnAck(h, s).Got?
    ensures Took(s, h.remainLen, DecodeConnAck(h, s), BodySize(h, s)) && DecodeConnAck(h, s).left == 0
  {
    assert DecodeConnAck(h, s).rest == s[2..];
  }

  lemma BodyTakes(gz: Gzip, h: Header, s: Bytes)
    requires 0 < h.msgType < 8 && h.flags < 8 && DecodeBody(gz, h, s).Got?
    ensures Took(s, h.remainLen, DecodeBody(gz, h, s), BodySize(h, s)) && BodySize(h, s) < WORD - 1
    ensures DecodeBody(gz, h, s).left == 0
  {
    hide DecodeConnect, DecodeSendReq, DecodeSendResp, GetUint8;
    GetUintsTake(s, h.remainLen);
    if h.msgType == CONNECT {
      ConnectTakes(gz, h, s);
    } else if h.msgType == SEND_REQ {
      SendReqTakes(gz, h, s);
    } else if h.msgType == SEND_RESP {
      SendRespTakes(gz, h, s);
    } else if h.msgType == CONN_ACK {
      ConnAckTakes(h, s);
    }
  }

  lemma ZeroLeft(a: Uint32, n: nat)
    requires Sub32(a, n) == 0 && n < WORD
    ensures a == n
  {
  }

  /** A message that is accepted took exactly its header and the number of bytes the header
      announces, although the counter may wrap on the way; and a header whose length has four
      continuation bytes (so that RemainLen reads 2^32-1) is never accepted, for any type. */
  lemma ExactConsumption(gz: Gzip, s: Bytes)
    ensures Decode(gz, s).Got? ==>
      var r := DecodeHeader(s);
      && r.HeaderOk?
      && r.header.remainLen < MAX_LENGTH
      && !Continued(s[1..], 4)
      && r.size + r.header.remainLen <= |s|
      && Decode(gz, s).rest == s[r.size + r.header.remainLen..]
  {
    if Decode(gz, s).Got? {
      var r := DecodeHeader(s);
      HeaderConsumption(s);
      BodyTakes(gz, r.header, r.rest);
      var n := BodySize(r.header, r.rest);
      ZeroLeft(r.header.remainLen, n);
      assert s[r.size..][n..] == s[r.size + n..];
    }
  }

  // ----- when the decoder runs into the array of length -1 -----

  /** A SendReq whose type string is at most one byte long and whose coded type alone is as long as
      the announced length, so that it ends two bytes past it, behind the id, followed by a refused
      payload length. The 32-bit counter has wrapped to 2^32-2 by then. */
  ghost predicate DeclaresNegativeArray(s: Bytes) {
    && DecodeHeader(s).HeaderOk?
    && var r := DecodeHeader(s);
    && r.header.msgType == SEND_REQ && |r.rest| >= 2
    && r.header.remainLen >= 2
    && var body := r.rest[2..];
    && DecodedLength(body, 0).Length?
    && var topic := DecodedLength(body, 0);
    && topic.value <= 1 && |topic.rest| >= topic.value
    && r.header.remainLen == topic.size + topic.value
    && Continued(topic.rest[topic.value..], 4)
  }

  lemma FirstFieldDefined(s: Bytes, h: Header)
    requires h.remainLen < MAX_LENGTH || h.remainLen == WORD - 1
    ensures !GetString(s, h.remainLen).Undefined?
    ensures GetUint16(s, h.remainLen).Got? ==>
      var p := GetUint16(s, h.remainLen); !GetString(p.rest, p.left).Undefined?
  {
    GetStringUndefinedIff(s, h.remainLen);
    var p := GetUint16(s, h.remainLen);
    if p.Got? { GetStringUndefinedIff(p.rest, p.left); }
  }

  lemma ConnectDefined(gz: Gzip, h: Header, s: Bytes)
    requires h.remainLen < MAX_LENGTH || h.remainLen == WORD - 1
    ensures !DecodeConnect(gz, h, s).Undefined?
  {
    ConnectShape(gz, h, s);
    FirstFieldDefined(s, h);
    hide DecodeConnect;
    if DecodeConnect(gz, h, s).Undefined? {
      hide GetUint8, GetUint16;
      var p1 := GetString(s, h.remainLen);
      var p2 := GetUint8(p1.rest, p1.left);
      var p3 := GetUint8(p2.rest, p2.left);
      var p4 := GetUint16(p3.rest, p3.left);
      FourBytes(p1.rest, p1.left);
      NameLeaves(s, h.remainLen);
      GetStringUndefinedIff(p4.rest, p4.left);
      assert false;
    }
  }

  /** After the protocol name and four more bytes the counter is never one short of a wrap. */
  lemma NameLeaves(s: Bytes, left: Uint32)
    requires left < MAX_LENGTH || left == WORD - 1
    requires GetString(s, left).Got? && GetString(s, left).value == PROTOCOL_NAME
    ensures GetString(s, left).left - 4 != WORD - 2
  {
    LengthConsumption(s);
  }

  lemma SendReqDefined(gz: Gzip, h: Header, s: Bytes)
    requires (h.remainLen < MAX_LENGTH || h.remainLen == WORD - 1) && h.flags < 8
    ensures DecodeSendReq(gz, h, s).Undefined? <==>
      && |s| >= 2 && h.remainLen >= 2
      && DecodedLength(s[2..], 0).Length?
      && var topic := DecodedLength(s[2..], 0);
      && topic.value <= 1 && |topic.rest| >= topic.value
      && h.remainLen == topic.size + topic.value
      && Continued(topic.rest[topic.value..], 4)
  {
    hide DecodeSendReq, GetString, DecodedLength, GetGzipString;
    FirstFieldDefined(s, h);
    SendReqUndefinedIn(gz, h, s);
    if GetUint16(s, h.remainLen).Got? {
      SecondFieldUndefinedIff(s[2..], h.remainLen);
    }
  }

  lemma SendReqUndefinedIn(gz: Gzip, h: Header, s: Bytes)
    requires h.flags < 8
    ensures DecodeSendReq(gz, h, s).Undefined? <==>
      var p1 := GetUint16(s, h.remainLen);
      p1.Got? && p1.rest == s[2..] && p1.left == h.remainLen - 2 &&
      var p2 := GetString(p1.rest, p1.left);
      p2.Undefined? || (p2.Got? && GetString(p2.rest, p2.left).Undefined?)
  {
    hide GetString;
  }

  lemma SecondFieldUndefinedIff(s: Bytes, remain: Uint32)
    requires remain >= 2 && (remain < MAX_LENGTH || remain == WORD - 1)
    ensures
      var p := GetString(s, remain - 2);
      p.Got? && GetString(p.rest, p.left).Undefined? <==>
      && DecodedLength(s, 0).Length?
      && var topic := DecodedLength(s, 0);
      && topic.value <= 1 && |topic.rest| >= topic.value
      && remain == topic.size + topic.value
      && Continued(topic.rest[topic.value..], 4)
  {
    LengthConsumption(s);
    var topic := DecodedLength(s, 0);
    var p := GetString(s, remain - 2);
    if topic.Length? {
      var left1 := Sub32(remain - 2, topic.size);
      assert left1 == if remain - 2 >= topic.size then remain - 2 - topic.size
                      else remain - 2 - topic.size + WORD;
    }
    if p.Got? {
      GetStringUndefinedIff(p.rest, p.left);
    }
  }

  /** Decoding always returns a message or throws, except on exactly these inputs. */
  lemma UndefinedIff(gz: Gzip, s: Bytes)
    ensures Decode(gz, s).Undefined? <==> DeclaresNegativeArray(s)
  {
    hide DecodedLength, DecodeConnect, DecodeSendReq, GetString;
    if DecodeHeader(s).HeaderOk? {
      HeaderConsumption(s);
      var r := DecodeHeader(s);
      if r.header.msgType == CONNECT {
        ConnectDefined(gz, r.header, r.rest);
      } else if r.header.msgType == SEND_REQ {
        SendReqDefined(gz, r.header, r.rest);
      } else if r.header.msgType == SEND_RESP {
        FirstFieldDefined(r.rest, r.header);
      }
    }
  }

  /** One of them: a SendReq of length 2 with id 1 and type "a", then four bytes 0x80. */
  lemma UndefinedExample(gz: Gzip)
    ensures Decode(gz, [0x60, 2, 0, 1, 1, 0x61, 0x80, 0x80, 0x80, 0x80]).Undefined?
  {
    hide DecodedLength, Decode, DecodeHeader;
    var refused: Bytes := [0x80, 0x80, 0x80, 0x80];
    var body: Bytes := [1] + ([0x61] + refused);
    SendReqHeader([0, 1] + body);
    OneByteLength(1, [0x61] + refused);
    assert ([0, 1] + body)[2..] == body && ([0x61] + refused)[1..] == refused;
    var s: Bytes := [0x60, 2] + ([0, 1] + body);
    assert DeclaresNegativeArray(s);
    hide DeclaresNegativeArray;
    UndefinedIff(gz, s);
    assert s == [0x60, 2, 0, 1, 1, 0x61, 0x80, 0x80, 0x80, 0x80];
  }

  lemma SendReqHeader(rest: Bytes)
    ensures DecodeHeader([0x60, 2] + rest) == HeaderOk(Header(SEND_REQ, 0, 2), 2, rest)
  {
    var s: Bytes := [0x60, 2] + rest;
    assert s[1..] == [2] + rest;
    OneByteLength(2, rest);
    hide DecodedLength;
  }

  lemma OneByteLength(n: Byte, rest: Bytes)
    requires n < 128
    ensures DecodedLength([n] + rest, 0) == Length(n, 1, rest)
  {
    assert ([n] + rest)[1..] == rest;
  }
}
