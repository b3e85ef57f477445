/** Which exception the codec throws, and on what bytes: the fields of packet/encoding.cpp, the
    header of packet/fix_header.cpp and the messages of packet/message.cpp. */
module Refusals {
  import opened Options
  import opened Encoding
  import opened Messages
  import opened Framing

  // ----- fields -----

  /** A number of one or two bytes: the packet is looked at before the stream. */
  lemma {:induction false} UintRefused(s: Bytes, left: Uint32)
    ensures GetUint8(s, left) == Threw(DataExceedsPacket) <==> left == 0
    ensures GetUint8(s, left) == Threw(SocketClose) <==> left > 0 && s == []
    ensures GetUint8(s, left).Got? <==> left > 0 && s != []
    ensures GetUint16(s, left) == Threw(DataExceedsPacket) <==> left < 2
    ensures GetUint16(s, left) == Threw(SocketClose) <==> left >= 2 && |s| < 2
    ensures GetUint16(s, left).Got? <==> left >= 2 && |s| >= 2
  {
  }

  /** A length is cut off iff the stream ends before a byte without the continuation bit, and before
      the fourth byte. */
  lemma {:induction false} CutOffIff(s: Bytes, i: nat)
    requires i <= 4
    ensures DecodedLength(s, i).CutOff? <==> |s| < 4 - i && Continued(s, |s|)
    decreases 4 - i
  {
    if i < 4 && s != [] {
      ContinuedStep(s, |s|);
      CutOffIff(s[1..], i + 1);
    }
  }

  /** A string: refused for the packet if its length code is bad or says more than the packet has left,
      and for the stream if that ends in the length or in the string. */
  lemma {:induction false} StringRefused(s: Bytes, left: Uint32)
    ensures var r := DecodedLength(s, 0);
      && (GetString(s, left) == Threw(DataExceedsPacket) <==>
           (Continued(s, 4) && left != WORD - 2) || (r.Length? && Sub32(left, r.size) < r.value))
      && (GetString(s, left) == Threw(SocketClose) <==>
           (|s| < 4 && Continued(s, |s|)) || (r.Length? && Sub32(left, r.size) >= r.value && |s| < r.size + r.value))
      && (GetString(s, left).Got? <==>
           r.Length? && Sub32(left, r.size) >= r.value && |s| >= r.size + r.value)
      && (GetString(s, left).Got? ==> GetString(s, left).value == s[r.size..r.size + r.value])
  {
    hide DecodedLength;
    LengthConsumption(s);
    CutOffIff(s, 0);
    var r := DecodedLength(s, 0);
    assert Sub32(left, -1) == if left == WORD - 1 then 0 else left + 1;
    if GetString(s, left).Got? { assert s[r.size..][..r.value] == s[r.size..r.size + r.value]; }
  }

  /** A compressed string: an empty one is not decompressed, any other one is, and is refused iff that
      fails. */
  lemma {:induction false} GzipStringRefused(gz: Gzip, s: Bytes, left: Uint32)
    ensures var raw, p := GetString(s, left), GetGzipString(gz, s, left);
      && (raw.Threw? ==> p == Threw(raw.exc)) && (raw.Undefined? ==> p.Undefined?)
      && (raw.Got? && raw.value == [] ==> p == raw)
      && (raw.Got? && raw.value != [] ==>
           (p == Threw(UngzipError) <==> gz.uncompress(raw.value).None?)
           && (p.Got? <==> gz.uncompress(raw.value).Some?)
           && (p.Got? ==> Some(p.value) == gz.uncompress(raw.value) && p.rest == raw.rest && p.left == raw.left))
  {
    hide GetString;
  }

  // ----- headers -----

  /** The type is looked at before the flags, and the flags before the length; a length with four
      continuation bytes is not refused here. */
  lemma {:induction false} HeaderRefused(s: Bytes)
    ensures var r := DecodeHeader(s); var known := s != [] && 16 <= s[0] < 128; var even := s != [] && s[0] % 16 in {0, 2, 4, 6};
      && (r == HeaderThrew(BadMsgType) <==> s != [] && !known)
      && (r == HeaderThrew(InvalidFlag) <==> known && !even)
      && (r == HeaderThrew(SocketClose) <==>
           s == [] || (known && even && |s| < 5 && Continued(s[1..], |s| - 1)))
      && (r.HeaderOk? <==> known && even && (|s| >= 5 || !Continued(s[1..], |s| - 1)))
      && (known && even && Continued(s[1..], 4) ==> r == HeaderOk(Header(s[0] / 16, s[0] % 16, WORD - 1), 5, s[5..]))
  {
    hide DecodedLength;
    if s != [] {
      CutOffIff(s[1..], 0);
      LengthConsumption(s[1..]);
      if Continued(s[1..], 4) { assert s[1..][4..] == s[5..]; }
    }
  }

  lemma {:induction false} HeaderNotWritten(h: Header)
    ensures EncodeHeader(h).Wrote? <==> 1 <= h.msgType <= 7
    ensures !EncodeHeader(h).Wrote? ==> EncodeHeader(h) == Failed(BadMsgType)
  {
  }

  /** A frame is not written iff it would be too long. */
  lemma {:induction false} FrameNotWritten(t: int, flags: Byte, variable: Bytes, payload: Bytes, data: Bytes)
    requires 0 < t < 8 && |payload| < 0x8000_0000 && |data| < 0x8000_0000
    ensures Frame(t, flags, variable, payload, data).Wrote? <==> |variable| + |payload| + |data| < 0x1000_0000
    ensures !Frame(t, flags, variable, payload, data).Wrote? ==>
      Frame(t, flags, variable, payload, data) == Failed(MsgTooLong)
  {
  }

  // ----- messages -----

  /** What a login is answered with. */
  function LoginOutcome(gz: Gzip, name: Bytes, version: Byte, flags: Byte, keepAlive: Uint16, packed: Bytes,
                        extra: Bytes, rest: Bytes): Parsed<Message>
    requires packed == [] || gz.uncompress(packed).Some?
  {
    if name != PROTOCOL_NAME then Threw(InvalidProName)
    else if version >= 2 then Threw(InvalidProVersion)
    else if flags != 0 && flags != 128 then Threw(InvalidFlag)
    else if extra != [] then Threw(MsgTooLong)
    else Got(Connect(name, version, flags == 128, keepAlive, if packed == [] then [] else gz.uncompress(packed).value),
             rest, 0)
  }

  function Login(name: Bytes, version: Byte, flags: Byte, keepAlive: Uint16): Bytes {
    SetString(name) + [version, flags] + SetUint16(keepAlive)
  }

  /** Any login that is framed correctly, whatever its fields: the name is looked at first, then the
      version, then the flags, and only then is anything else read. */
  lemma {:induction false} ConnectRefused(gz: Gzip, name: Bytes, version: Byte, flags: Byte, keepAlive: Uint16,
                                         packed: Bytes, extra: Bytes, rest: Bytes)
    requires |packed| + |extra| < 0x1000 && |name| < 0x1000
    requires packed == [] || gz.uncompress(packed).Some?
    ensures var frame := Frame(CONNECT, 0, Login(name, version, flags, keepAlive), SetString(packed), extra);
      frame.Wrote?
      && Decode(gz, frame.value + rest) == LoginOutcome(gz, name, version, flags, keepAlive, packed, extra, rest)
  {
    var variable := Login(name, version, flags, keepAlive);
    var total := |variable| + |SetString(packed)| + |extra|;
    LoginSize(name, version, flags, keepAlive);
    StringSize(packed);
    hide Frame, DecodeHeader, DecodeConnect, Login, SetString, LoginOutcome, EncodedLength;
    FrameNotWritten(CONNECT, 0, variable, SetString(packed), extra);
    FrameDecodes(CONNECT, 0, variable, SetString(packed), extra, rest);
    LoginRead(gz, name, version, flags, keepAlive, packed, extra, rest);
  }

  lemma LoginSize(name: Bytes, version: Byte, flags: Byte, keepAlive: Uint16)
    requires |name| < 0x1000
    ensures |Login(name, version, flags, keepAlive)| == |SetString(name)| + 4 && |SetString(name)| <= |name| + 2
  {
    StringSize(name);
  }

  lemma LoginRead(gz: Gzip, name: Bytes, version: Byte, flags: Byte, keepAlive: Uint16, packed: Bytes, extra: Bytes,
                  rest: Bytes)
    requires |packed| + |extra| < 0x1000 && |name| < 0x1000
    requires packed == [] || gz.uncompress(packed).Some?
    ensures var body := Login(name, version, flags, keepAlive) + SetString(packed) + extra;
      |body| < WORD
      && DecodeConnect(gz, Header(CONNECT, 0, |body|), body + rest) ==
           LoginOutcome(gz, name, version, flags, keepAlive, packed, extra, rest)
  {
    var tail := extra + rest;
    LoginSize(name, version, flags, keepAlive);
    StringSize(packed);
    var body := Login(name, version, flags, keepAlive) + SetString(packed) + extra;
    var s1 := [version, flags] + (SetUint16(keepAlive) + (SetString(packed) + tail));
    assert body + rest == SetString(name) + s1;
    var left := |body| - |SetString(name)|;
    hide Login, DecodedLength, EncodedLength, GetString, SetString, SetUint16, GetUint16, DecodeConnect, LoginOutcome;
    StringRoundTrip(name, s1, |body|);
    LoginFields(gz, name, version, flags, keepAlive, packed, extra, rest, left);
    LoginAssembled(gz, Header(CONNECT, 0, |body|), body + rest, name, version, flags, keepAlive, packed, extra, rest);
  }

  /** The fields behind the name. */
  lemma LoginFields(gz: Gzip, name: Bytes, version: Byte, flags: Byte, keepAlive: Uint16, packed: Bytes, extra: Bytes,
                    rest: Bytes, left: Uint32)
    requires |packed| < 0x1000 && left == 4 + |SetString(packed)| + |extra|
    ensures var s3 := SetUint16(keepAlive) + (SetString(packed) + (extra + rest));
      && GetUint8([version, flags] + s3, left) == Got(version, [flags] + s3, left - 1)
      && GetUint8([flags] + s3, left - 1) == Got(flags, s3, left - 2)
      && GetUint16(s3, left - 2) == Got(keepAlive, SetString(packed) + (extra + rest), left - 4)
      && GetString(SetString(packed) + (extra + rest), left - 4) == Got(packed, extra + rest, |extra|)
  {
    var s3 := SetUint16(keepAlive) + (SetString(packed) + (extra + rest));
    assert ([version, flags] + s3)[1..] == [flags] + s3 && ([flags] + s3)[1..] == s3;
    StringSize(packed);
    hide SetString, GetString, SetUint16, GetUint16;
    Uint16RoundTrip(keepAlive, SetString(packed) + (extra + rest), left - 2);
    StringRoundTrip(packed, extra + rest, left - 4);
  }

  lemma LoginAssembled(gz: Gzip, h: Header, s: Bytes, name: Bytes, version: Byte, flags: Byte, keepAlive: Uint16,
                       packed: Bytes, extra: Bytes, rest: Bytes)
    requires packed == [] || gz.uncompress(packed).Some?
    requires |extra| < 0x1000 && GetString(s, h.remainLen).Got? && GetString(s, h.remainLen).value == name
    requires var p1 := GetString(s, h.remainLen);
      GetUint8(p1.rest, p1.left).Got? && GetUint8(p1.rest, p1.left).value == version
    requires var p1 := GetString(s, h.remainLen);
      var p2 := GetUint8(p1.rest, p1.left);
      GetUint8(p2.rest, p2.left).Got? && GetUint8(p2.rest, p2.left).value == flags
    requires var p1 := GetString(s, h.remainLen);
      var p2 := GetUint8(p1.rest, p1.left);
      var p3 := GetUint8(p2.rest, p2.left);
      GetUint16(p3.rest, p3.left).Got? && GetUint16(p3.rest, p3.left).value == keepAlive
    requires var p1 := GetString(s, h.remainLen);
      var p2 := GetUint8(p1.rest, p1.left);
      var p3 := GetUint8(p2.rest, p2.left);
      var p4 := GetUint16(p3.rest, p3.left);
      GetString(p4.rest, p4.left) == Got(packed, extra + rest, |extra|)
    ensures DecodeConnect(gz, h, s) == LoginOutcome(gz, name, version, flags, keepAlive, packed, extra, rest)
  {
    hide GetString, GetUint8, GetUint16;
    assert extra == [] ==> extra + rest == rest;
  }

  lemma StringSize(v: Bytes)
    requires |v| < 0x1000
    ensures |v| + 1 <= |SetString(v)| <= |v| + 2
  {
    EncodedLengthSize(|v|, 2);
    assert Pow128(2) == 128 * 128 by { assert Pow128(1) == 128; }
  }

  /** A body that is longer than its message is refused, for the messages of a fixed size. */
  lemma {:induction false} TooLong(gz: Gzip, code: Byte, extra: Bytes, rest: Bytes)
    requires extra != [] && |extra| < 0x1000 && code < 7
    ensures var ping := Frame(PING_RESP, 0, [], extra, []); ping.Wrote? && Decode(gz, ping.value + rest) == Threw(MsgTooLong)
    ensures var ping := Frame(PING_REQ, 0, [], extra, []); ping.Wrote? && Decode(gz, ping.value + rest) == Threw(MsgTooLong)
    ensures var kick := Frame(DISCONNECT, 0, [code], extra, []);
      kick.Wrote? && Decode(gz, kick.value + rest) == Threw(MsgTooLong)
    ensures var ack := Frame(CONN_ACK, 0, [0, code], extra, []);
      ack.Wrote? && Decode(gz, ack.value + rest) == Threw(MsgTooLong)
  {
    hide Frame, DecodeHeader, EncodedLength, DecodedLength;
    FrameNotWritten(PING_RESP, 0, [], extra, []);
    FrameNotWritten(PING_REQ, 0, [], extra, []);
    FrameNotWritten(DISCONNECT, 0, [code], extra, []);
    FrameNotWritten(CONN_ACK, 0, [0, code], extra, []);
    FrameDecodes(PING_RESP, 0, [], extra, [], rest);
    FrameDecodes(PING_REQ, 0, [], extra, [], rest);
    FrameDecodes(DISCONNECT, 0, [code], extra, [], rest);
    FrameDecodes(CONN_ACK, 0, [0, code], extra, [], rest);
  }

  /** SendResp's encoder hands only the payload to the writer, and refuses what its frame would. */
  lemma {:induction false} SendRespWritten(gz: Gzip, id: Uint16, payload: Bytes)
    ensures gz.compress(payload).None? ==> Encode(gz, SendResp(id, payload)) == Failed(GzipError)
    ensures gz.compress(payload).Some? && |gz.compress(payload).value| < 0x1000 ==>
      Encode(gz, SendResp(id, payload)) == Wrote(SetString(gz.compress(payload).value))
    ensures gz.compress(payload).Some? && 0x1000_0000 <= |gz.compress(payload).value| < 0x4000_0000 ==>
      Encode(gz, SendResp(id, payload)) == Failed(MsgTooLong)
  {
    if gz.compress(payload).Some? && |gz.compress(payload).value| < 0x4000_0000 {
      var packed := gz.compress(payload).value;
      if |packed| < 0x1000 { StringSize(packed); }
      SmallString(packed);
      hide Frame, EncodedLength;
      FrameNotWritten(SEND_RESP, 0, SetUint16(id), SetString(packed), []);
    }
  }

  lemma SmallString(v: Bytes)
    ensures |v| < 0x4000_0000 ==> |v| <= |SetString(v)| <= |v| + 5
  {
    if |v| < 0x4000_0000 {
      Pow128Four();
      EncodedLengthSize(|v|, 5);
    }
  }

  /** Compression that fails is reported as such, for the payload and for data that is not empty. */
  lemma {:induction false} NotPacked(gz: Gzip, m: Message)
    requires m.Connect? || m.SendReq?
    ensures gz.compress(m.payload).None? ==> Encode(gz, m) == Failed(GzipError)
    ensures m.SendReq? && m.data.Some? && m.data.value != [] && gz.compress(m.data.value).None? ==>
      Encode(gz, m) == Failed(GzipError)
  {
  }
}
