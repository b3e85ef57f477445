/** The Encode and Decode methods of packet/message.cpp and MessageManager::DecodeMessage,
    statement by statement, each proved to compute the function of the same name in Messages. */
module MessageMethods {
  import opened Options
  import opened Encoding
  import opened PacketIo
  import M = Messages

  // ----- decoding -----

  method DecodeHeader(reader: TcpReader) returns (o: Outcome<M.Header>)
    requires reader.Valid()
    modifies reader
    ensures reader.Valid()
    ensures match M.DecodeHeader(old(reader.Input()))
            case HeaderThrew(e) => o == Raised(e)
            case HeaderOk(h, _, rest) => o.Value? && o.value == h && reader.Input() == rest
  {
    var first := reader.ReadFull(1);
    if first.Failed? {
      return Raised(first.exc);
    }
    var b := first.value[0];
    var msgType := b / 16;
    if msgType <= 0 || msgType >= 8 {
      return Raised(BadMsgType);
    }
    var flags := b % 16;
    if flags / 8 != 0 || flags % 2 != 0 {
      return Raised(InvalidFlag);
    }
    var length := reader.DecodeLength();
    if length.Failed? {
      return Raised(length.exc);
    }
    return Value(M.Header(msgType, flags, length.value.0 % WORD), 0);
  }

  method Finish(m: M.Message, left: Uint32) returns (o: Outcome<M.Message>)
    ensures o == if left != 0 then Raised(MsgTooLong) else Value(m, 0)
  {
    if left != 0 {
      return Raised(MsgTooLong);
    }
    return Value(m, left);
  }

  method DecodeConnect(gz: Gzip, h: M.Header, reader: TcpReader) returns (o: Outcome<M.Message>)
    requires reader.Valid()
    modifies reader
    ensures reader.Valid() && Agrees(o, reader.Input(), M.DecodeConnect(gz, h, old(reader.Input())))
  {
    var name :- reader.GetString(h.remainLen);
    if name.0 != M.PROTOCOL_NAME {
      return Raised(InvalidProName);
    }
    var version :- reader.GetUint8(name.1);
    if version.0 > M.PROTOCOL_VERSION {
      return Raised(InvalidProVersion);
    }
    var flags :- reader.GetUint8(version.1);
    var enableGzip := flags.0 >= 128;
    if flags.0 != 0 && flags.0 != 128 {
      return Raised(InvalidFlag);
    }
    var keepAlive :- reader.GetUint16(flags.1);
    var payload :- reader.GetGzipString(gz, keepAlive.1);
    o := Finish(M.Connect(name.0, version.0, enableGzip, keepAlive.0, payload.0), payload.1);
  }

  method DecodeConnAck(h: M.Header, reader: TcpReader) returns (o: Outcome<M.Message>)
    requires reader.Valid()
    modifies reader
    ensures reader.Valid() && Agrees(o, reader.Input(), M.DecodeConnAck(h, old(reader.Input())))
  {
    var flags :- reader.GetUint8(h.remainLen);
    if flags.0 != 0 {
      return Raised(InvalidFlag);
    }
    var code :- reader.GetUint8(flags.1);
    if code.0 >= M.RET_CODE_INVALID {
      return Raised(BadReturnCode);
    }
    o := Finish(M.ConnAck(code.0), code.1);
  }

  method DecodeDisconnect(h: M.Header, reader: TcpReader) returns (o: Outcome<M.Message>)
    requires reader.Valid()
    modifies reader
    ensures reader.Valid() && Agrees(o, reader.Input(), M.DecodeDisconnect(h, old(reader.Input())))
  {
    var kind :- reader.GetUint8(h.remainLen);
    o := Finish(M.Disconnect(kind.0), kind.1);
  }

  method DecodeSendReq(gz: Gzip, h: M.Header, reader: TcpReader) returns (o: Outcome<M.Message>)
    requires reader.Valid()
    modifies reader
    ensures reader.Valid() && Agrees(o, reader.Input(), M.DecodeSendReq(gz, h, old(reader.Input())))
  {
    var level := h.flags / 2 % 4;
    var hasData := h.flags / 8 != 0;
    var id :- reader.GetUint16(h.remainLen);
    var topic :- reader.GetString(id.1);
    var payload :- reader.GetGzipString(gz, topic.1);
    var left := payload.1;
    var data := None;
    if hasData {
      var field :- reader.GetGzipString(gz, left);
      data := Some(field.0);
      left := field.1;
    }
    o := Finish(M.SendReq(level, id.0, topic.0, payload.0, data), left);
  }

  method DecodeSendResp(gz: Gzip, h: M.Header, reader: TcpReader) returns (o: Outcome<M.Message>)
    requires reader.Valid()
    modifies reader
    ensures reader.Valid() && Agrees(o, reader.Input(), M.DecodeSendResp(gz, h, old(reader.Input())))
  {
    var id :- reader.GetUint16(h.remainLen);
    var payload :- reader.GetGzipString(gz, id.1);
    o := Finish(M.SendResp(id.0, payload.0), payload.1);
  }

  /** DecodeMessage: the outcome and the bytes left in the reader are those of Messages.Decode,
      whatever pieces the socket delivered the input in. */
  method DecodeMessage(gz: Gzip, reader: TcpReader) returns (o: Outcome<M.Message>)
    requires reader.Valid()
    modifies reader
    ensures reader.Valid() && Agrees(o, reader.Input(), M.Decode(gz, old(reader.Input())))
  {
    var header := DecodeHeader(reader);
    if !header.Value? {
      return Raised(header.exc);
    }
    var h := header.value;
    if h.msgType == M.CONNECT {
      o := DecodeConnect(gz, h, reader);
    } else if h.msgType == M.CONN_ACK {
      o := DecodeConnAck(h, reader);
    } else if h.msgType == M.PING_REQ {
      o := Finish(M.PingReq, h.remainLen);
    } else if h.msgType == M.PING_RESP {
      o := Finish(M.PingResp, h.remainLen);
    } else if h.msgType == M.DISCONNECT {
      o := DecodeDisconnect(h, reader);
    } else if h.msgType == M.SEND_REQ {
      o := DecodeSendReq(gz, h, reader);
    } else {
      o := DecodeSendResp(gz, h, reader);
    }
  }

  // ----- encoding -----

  /** WriteHeader into `headerBuf`. */
  method WriteHeader(headerBuf: Buffer, msgType: int, flags: Byte, variable: Bytes, payloadLen: int, dataLen: int)
    returns (w: Written<()>)
    modifies headerBuf
    ensures
      var total := |variable| + payloadLen + dataLen;
      if total > M.MAX_PAYLOAD then w == Failed(MsgTooLong)
      else match M.EncodeHeader(M.Header(msgType, flags, ToInt32(total) % WORD))
           case Failed(e) => w == Failed(e)
           case Wrote(head) => w == Wrote(()) && headerBuf.bytes == old(headerBuf.bytes) + head + variable
  {
    var total := |variable| + payloadLen + dataLen;
    if total > M.MAX_PAYLOAD {
      return Failed(MsgTooLong);
    }
    if msgType <= 0 || msgType >= 8 {
      return Failed(BadMsgType);
    }
    headerBuf.Push(msgType * 16 + flags % 16);
    headerBuf.EncodeLength(ToInt32(total) % WORD);
    headerBuf.Append(variable);
    return Wrote(());
  }

  /** The common end of the Encode methods: header, then payload, then data. */
  method Send(msgType: int, flags: Byte, variable: Bytes, payload: Bytes, data: Bytes) returns (w: Written<Bytes>)
    ensures w == M.Frame(msgType, flags, variable, payload, data)
  {
    var finalBuf := new Buffer();
    var r := WriteHeader(finalBuf, msgType, flags, variable, ToInt32(|payload|), ToInt32(|data|));
    if r.Failed? {
      return Failed(r.exc);
    }
    ghost var head := M.EncodeHeader(M.Header(msgType, flags,
      ToInt32(|variable| + ToInt32(|payload|) + ToInt32(|data|)) % WORD)).value;
    assert finalBuf.bytes == head + variable;
    finalBuf.Append(payload);
    finalBuf.Append(data);
    assert finalBuf.bytes == head + variable + payload + data;
    return Wrote(finalBuf.bytes);
  }

  method EncodeConnect(gz: Gzip, m: M.Message) returns (w: Written<Bytes>)
    requires m.Connect?
    ensures w == M.EncodeConnect(gz, m)
  {
    var buf := new Buffer();
    var payloadBuf := new Buffer();
    buf.SetString(m.name);
    buf.Push(m.version);
    buf.Push(if m.enableGzip then 128 else 0);
    buf.SetUint16(m.keepAlive);
    assert buf.bytes == M.ConnectVariable(m);
    var r := payloadBuf.SetGzipString(gz, m.payload);
    if r.Failed? {
      return Failed(r.exc);
    }
    assert payloadBuf.bytes == SetGzipString(gz, m.payload).value;
    w := Send(M.CONNECT, 0, buf.bytes, payloadBuf.bytes, []);
  }

  method EncodeSendReq(gz: Gzip, m: M.Message) returns (w: Written<Bytes>)
    requires m.SendReq?
    ensures w == M.EncodeSendReq(gz, m)
  {
    var buf := new Buffer();
    var payloadBuf := new Buffer();
    var dataBuf := new Buffer();
    var flags := m.level * 2 + if m.data.Some? then 8 else 0;
    buf.SetUint16(m.id);
    buf.SetString(m.topic);
    assert buf.bytes == M.SendReqVariable(m);
    var r := payloadBuf.SetGzipString(gz, m.payload);
    if r.Failed? {
      return Failed(r.exc);
    }
    assert payloadBuf.bytes == SetGzipString(gz, m.payload).value;
    if m.data.Some? && m.data.value != [] {
      r := dataBuf.SetGzipString(gz, m.data.value);
      if r.Failed? {
        return Failed(r.exc);
      }
    }
    assert dataBuf.bytes == if m.data.Some? then SetGzipData(gz, m.data.value).value else [];
    w := Send(M.SEND_REQ, flags, buf.bytes, payloadBuf.bytes, dataBuf.bytes);
  }

  method EncodeSendResp(gz: Gzip, m: M.Message) returns (w: Written<Bytes>)
    requires m.SendResp?
    ensures w == M.EncodeSendResp(gz, m)
  {
    var buf := new Buffer();
    var payloadBuf := new Buffer();
    buf.SetUint16(m.id);
    var r := payloadBuf.SetGzipString(gz, m.payload);
    if r.Failed? {
      return Failed(r.exc);
    }
    assert buf.bytes == SetUint16(m.id) && payloadBuf.bytes == SetGzipString(gz, m.payload).value;
    w := Send(M.SEND_RESP, 0, buf.bytes, payloadBuf.bytes, []);
    if w.Wrote? {
      w := Wrote(payloadBuf.bytes);
    }
  }

  /** EncodeMessage: the bytes handed to the writer are those of Messages.Encode. */
  method EncodeMessage(gz: Gzip, m: M.Message) returns (w: Written<Bytes>)
    ensures w == M.Encode(gz, m)
  {
    match m
    case Connect(_, _, _, _, _) => w := EncodeConnect(gz, m);
    case ConnAck(code) => w := Send(M.CONNECT, 0, [0, code], [], []);
    case PingReq => w := Send(M.PING_REQ, 0, [], [], []);
    case PingResp => w := Send(M.PING_RESP, 0, [], [], []);
    case Disconnect(kind) => w := Send(M.DISCONNECT, 0, [kind], [], []);
    case SendReq(_, _, _, _, _) => w := EncodeSendReq(gz, m);
    case SendResp(_, _) => w := EncodeSendResp(gz, m);
  }
}
