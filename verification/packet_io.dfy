/** The codec as the source runs it: loops that push bytes into a vector, a reader that
    reassembles its input from whatever pieces the socket delivers, and decoders that move a
    reader forward and a counter down. Every method is tied to the functions of Encoding and
    Messages. */
module PacketIo {
  import opened Options
  import opened Encoding
  import opened Messages

  /** Result of a decoding method; `left` is the counter passed by reference. */
  datatype Outcome<+T> = Value(value: T, left: Uint32) | Raised(exc: Exc) | Wild {
    predicate IsFailure() { !Value? }

    function PropagateFailure<U>(): Outcome<U>
      requires IsFailure()
    {
      if Raised? then Raised(exc) else Wild
    }

    function Extract(): (T, Uint32)
      requires !IsFailure()
    {
      (value, left)
    }
  }

  /** The outcome and the unread input are the ones the specification gives. */
  ghost predicate Agrees<T>(o: Outcome<T>, input: Bytes, p: Parsed<T>) {
    match p
    case Got(v, rest, left) => o == Value(v, left) && input == rest
    case Threw(e) => o == Raised(e)
    case Undefined => o == Wild
  }

  /** std::vector<char>. */
  class Buffer {
    var bytes: Bytes

    constructor ()
      ensures bytes == []
    {
      bytes := [];
    }

    method Push(b: Byte)
      modifies this
      ensures bytes == old(bytes) + [b]
    {
      bytes := bytes + [b];
    }

    method Append(more: Bytes)
      modifies this
      ensures bytes == old(bytes) + more
    {
      bytes := bytes + more;
    }

    /** encodeLength. */
    method EncodeLength(n: Uint32)
      modifies this
      ensures bytes == old(bytes) + EncodedLength(n)
    {
      var length: nat := n;
      if length == 0 {
        Push(0);
      }
      while length > 0
        invariant length > 0 ==> bytes + EncodedLength(length) == old(bytes) + EncodedLength(n)
        invariant length == 0 ==> bytes == old(bytes) + EncodedLength(n)
      {
        var digit: Byte := length % 128;
        ghost var before, pushed := length, bytes;
        length := length / 128;
        if length > 0 {
          digit := digit + 128;
        }
        Push(digit);
        assert EncodedLength(before) == [digit] + (if length > 0 then EncodedLength(length) else []);
        assert pushed + ([digit] + EncodedLength(length)) == bytes + EncodedLength(length);
      }
    }

    method SetUint16(v: Uint16)
      modifies this
      ensures bytes == old(bytes) + Encoding.SetUint16(v)
    {
      Push(v / 256);
      Push(v % 256);
    }

    /** setString and setData. */
    method SetString(v: Bytes)
      modifies this
      ensures bytes == old(bytes) + Encoding.SetString(v)
    {
      EncodeLength(|v| % WORD);
      Append(v);
    }

    method SetGzipString(gz: Gzip, v: Bytes) returns (w: Written<()>)
      modifies this
      ensures match Encoding.SetGzipString(gz, v)
              case Failed(e) => w == Failed(e) && bytes == old(bytes)
              case Wrote(more) => w == Wrote(()) && bytes == old(bytes) + more
    {
      var packed := gz.compress(v);
      if packed.None? {
        return Failed(GzipError);
      }
      EncodeLength(|packed.value| % WORD);
      Append(packed.value);
      return Wrote(());
    }
  }

  /** TcpReader over a socket: `pieces` is what successive recv calls would deliver. */
  class TcpReader {
    var pieces: seq<Bytes>

    ghost predicate Valid()
      reads this
    {
      forall p :: p in pieces ==> p != []
    }

    static ghost function Joined(ps: seq<Bytes>): Bytes {
      if ps == [] then [] else ps[0] + Joined(ps[1..])
    }

    /** The bytes still to be read, however they are cut into pieces. */
    ghost function Input(): Bytes
      reads this
    {
      Joined(pieces)
    }

    constructor (pieces: seq<Bytes>)
      requires forall p :: p in pieces ==> p != []
      ensures Valid() && Input() == Joined(pieces)
    {
      this.pieces := pieces;
    }

    /** TcpSocket::Read: at least one byte and at most `len`, or the peer has closed. */
    method Receive(len: nat) returns (w: Written<Bytes>)
      requires Valid() && len > 0
      modifies this
      ensures Valid()
      ensures old(Input()) == [] ==> w == Failed(SocketClose) && Input() == []
      ensures old(Input()) != [] ==>
        w.Wrote? && 1 <= |w.value| <= len && old(Input()) == w.value + Input()
    {
      if pieces == [] {
        return Failed(SocketClose);
      }
      var piece := pieces[0];
      assert piece in pieces && forall p :: p in pieces[1..] ==> p in pieces;
      assert old(Input()) == piece + Joined(pieces[1..]);
      if |piece| <= len {
        pieces := pieces[1..];
        return Wrote(piece);
      }
      pieces := [piece[len..]] + pieces[1..];
      assert pieces[1..] == old(pieces)[1..];
      assert piece == piece[..len] + piece[len..];
      assert old(Input()) == piece[..len] + (piece[len..] + Joined(old(pieces)[1..]));
      return Wrote(piece[..len]);
    }

    /** ReadFull: exactly the next `len` bytes, independently of how they arrive. */
    method ReadFull(len: nat) returns (w: Written<Bytes>)
      requires Valid()
      modifies this
      ensures Valid()
      ensures len <= |old(Input())| ==> w == Wrote(old(Input())[..len]) && Input() == old(Input())[len..]
      ensures len > |old(Input())| ==> w == Failed(SocketClose)
    {
      var buf: Bytes := [];
      while |buf| < len
        invariant Valid() && |buf| <= len && old(Input()) == buf + Input()
      {
        var got :- Receive(len - |buf|);
        assert buf + (got + Input()) == (buf + got) + Input();
        buf := buf + got;
      }
      return Wrote(buf);
    }

    /** decodeLength. */
    method DecodeLength() returns (w: Written<(int, int)>)
      requires Valid()
      modifies this
      ensures Valid()
      ensures match DecodedLength(old(Input()), 0)
              case Length(n, k, rest) => w == Wrote((n, k)) && Input() == rest
              case BadLength(rest) => w == Wrote((-1, -1)) && Input() == rest
              case CutOff => w == Failed(SocketClose)
    {
      hide DecodedLength, Joined;
      ghost var whole := DecodedLength(Input(), 0);
      var v: nat, scale: nat := 0, 1;
      var i := 0;
      while i < 4
        invariant Valid() && 0 <= i <= 4
        invariant whole == Shifted(DecodedLength(Input(), i), v, scale)
      {
        DecodedLengthStep(Input(), i);
        var buf :- ReadFull(1);
        var b := buf[0];
        ghost var v0, scale0 := v, scale;
        v := v + b % 128 * scale;
        if b < 128 {
          return Wrote((v, i + 1));
        }
        scale := scale * 128;
        i := i + 1;
        ShiftedStep(DecodedLength(Input(), i), v0, scale0, b % 128);
      }
      DecodedLengthStep(Input(), 4);
      return Wrote((-1, -1));
    }

    method GetUint8(left: Uint32) returns (o: Outcome<Byte>)
      requires Valid()
      modifies this
      ensures Valid() && Agrees(o, Input(), Encoding.GetUint8(old(Input()), left))
    {
      if left < 1 {
        return Raised(DataExceedsPacket);
      }
      var w := ReadFull(1);
      if w.Failed? {
        return Raised(w.exc);
      }
      return Value(w.value[0], left - 1);
    }

    method GetUint16(left: Uint32) returns (o: Outcome<Uint16>)
      requires Valid()
      modifies this
      ensures Valid() && Agrees(o, Input(), Encoding.GetUint16(old(Input()), left))
    {
      if left < 2 {
        return Raised(DataExceedsPacket);
      }
      var w := ReadFull(2);
      if w.Failed? {
        return Raised(w.exc);
      }
      return Value(w.value[0] as int * 256 + w.value[1], left - 2);
    }

    /** getString and getData; a length of -1 that passes the test makes `char buf[-1]`. */
    method GetString(left: Uint32) returns (o: Outcome<Bytes>)
      requires Valid()
      modifies this
      ensures Valid() && Agrees(o, Input(), Encoding.GetString(old(Input()), left))
    {
      hide DecodedLength, Joined;
      var l := DecodeLength();
      if l.Failed? {
        return Raised(l.exc);
      }
      var (strLen, lenLen) := l.value;
      var left1 := Sub32(left, lenLen);
      if left1 < strLen % WORD {
        return Raised(DataExceedsPacket);
      }
      if strLen < 0 {
        return Wild;
      }
      LengthConsumption(old(Input()));
      var w := ReadFull(strLen);
      if w.Failed? {
        return Raised(w.exc);
      }
      return Value(w.value, left1 - strLen);
    }

    /** getGzipString and getGzipData. */
    method GetGzipString(gz: Gzip, left: Uint32) returns (o: Outcome<Bytes>)
      requires Valid()
      modifies this
      ensures Valid() && Agrees(o, Input(), Encoding.GetGzipString(gz, old(Input()), left))
    {
      var field :- GetString(left);
      var (raw, left1) := field;
      if |raw| == 0 {
        return Value([], left1);
      }
      var text := gz.uncompress(raw);
      if text.None? {
        return Raised(UngzipError);
      }
      return Value(text.value, left1);
    }
  }

  /** A length read after earlier digits worth `v`, whose next digit weighs `scale`. */
  ghost function Shifted(r: LengthRead, v: nat, scale: nat): LengthRead {
    match r
    case Length(n, k, rest) => Length(v + n * scale, k, rest)
    case other => other
  }

  lemma ShiftedStep(r: LengthRead, v: nat, scale: nat, digit: nat)
    ensures Shifted(r, v + digit * scale, scale * 128) ==
      Shifted(if r.Length? then Length(digit + 128 * r.value, r.size, r.rest) else r, v, scale)
  {
    match r
    case Length(n, k, rest) =>
      assert (digit + 128 * n) * scale == digit * scale + n * (scale * 128);
    case other =>
  }
}
