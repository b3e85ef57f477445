/** Wire encoding of packet/encoding.cpp: the base-128 length code, the fixed-width
    and length-prefixed fields, and the running `packetRemaining` counter, which is an
    unsigned 32-bit number and wraps. Bit operations are written as arithmetic. */
module Encoding {
  import opened Options

  type Byte = b: int | 0 <= b < 256
  type Bytes = seq<Byte>
  type Uint16 = n: int | 0 <= n < 0x1_0000
  type Uint32 = n: int | 0 <= n < WORD

  const WORD := 0x1_0000_0000
  const MAX_LENGTH := 0x1000_0000  // 2^28, the first length that needs a fifth byte

  /** The kinds of TcpException the codec throws. A stream that ends early is SocketClose. */
  datatype Exc =
    | BadMsgType | BadReturnCode | DataExceedsPacket | MsgTooLong | InvalidFlag
    | InvalidProName | InvalidProVersion | SocketClose | UngzipError | GzipError

  /** Outcome of a decoder: a value, the unread input and the new `packetRemaining`;
      or an exception; or the case in which C++ declares an array of length -1. */
  datatype Parsed<+T> = Got(value: T, rest: Bytes, left: Uint32) | Threw(exc: Exc) | Undefined {
    predicate IsFailure() { !Got? }

    function PropagateFailure<U>(): Parsed<U>
      requires IsFailure()
    {
      if Threw? then Threw(exc) else Undefined
    }

    function Extract(): (T, Bytes, Uint32)
      requires !IsFailure()
    {
      (value, rest, left)
    }
  }

  /** Outcome of an encoder. */
  datatype Written<+T> = Wrote(value: T) | Failed(exc: Exc) {
    predicate IsFailure() { Failed? }

    function PropagateFailure<U>(): Written<U>
      requires IsFailure()
    {
      Failed(exc)
    }

    function Extract(): T
      requires !IsFailure()
    {
      value
    }
  }

  /** zlib, seen as a pair of partial functions. */
  datatype Gzip = Gzip(compress: Bytes -> Option<Bytes>, uncompress: Bytes -> Option<Bytes>) {
    /** What the codec needs of zlib: decompression undoes compression, and the
        compressed form of a non-empty input is not empty. */
    ghost predicate Inverse() {
      forall x: Bytes {:trigger compress(x)} :: compress(x).Some? ==>
        uncompress(compress(x).value) == Some(x) && (compress(x).value == [] ==> x == [])
    }
  }

  /** `uint32_t` subtraction. */
  function Sub32(a: int, k: int): Uint32 { (a - k) % WORD }

  /** Conversion to `int32_t`. */
  function ToInt32(n: int): (r: int)
    ensures -0x8000_0000 <= r < 0x8000_0000
    ensures -0x8000_0000 <= n < 0x8000_0000 ==> r == n
  {
    (n + 0x8000_0000) % WORD - 0x8000_0000
  }

  // ----- the length code -----

  /** Base-128 digits, least significant first, continuation bit on all but the last. */
  function EncodedLength(n: nat): (r: Bytes)
    ensures r != []
  {
    if n < 128 then [n] else [n % 128 + 128] + EncodedLength(n / 128)
  }

  /** What `decodeLength` finds at the head of the input after `i` continuation bytes:
      a value and the total number of bytes, the (-1, -1) answer, or a cut-off stream. */
  datatype LengthRead = Length(value: nat, size: nat, rest: Bytes) | BadLength(rest: Bytes) | CutOff

  function DecodedLength(s: Bytes, i: nat): (r: LengthRead)
    requires i <= 4
    decreases 4 - i
    ensures r.Length? ==> r.size <= 4
  {
    if i == 4 then BadLength(s)
    else if s == [] then CutOff
    else if s[0] < 128 then Length(s[0], i + 1, s[1..])
    else
      match DecodedLength(s[1..], i + 1)
      case Length(v, k, rest) => Length(s[0] % 128 + 128 * v, k, rest)
      case other => other
  }

  function Pow128(k: nat): (p: nat)
    ensures p >= 1
  {
    if k == 0 then 1 else 128 * Pow128(k - 1)
  }

  lemma {:induction false} EncodedLengthSize(n: nat, k: nat)
    requires 1 <= k
    ensures n < Pow128(k) <==> |EncodedLength(n)| <= k
  {
    if n < 128 {
      assert Pow128(k) == 128 * Pow128(k - 1);
    } else if k == 1 {
      assert Pow128(1) == 128 * Pow128(0);
    } else {
      EncodedLengthSize(n / 128, k - 1);
      assert n < 128 * Pow128(k - 1) <==> n / 128 < Pow128(k - 1);
    }
  }

  lemma Pow128Four()
    ensures Pow128(4) == MAX_LENGTH && Pow128(5) == 128 * MAX_LENGTH
  {
    assert Pow128(1) == 128;
    assert Pow128(2) == 128 * 128;
    assert Pow128(3) == 128 * 128 * 128;
  }

  /** Decoding an encoding: exact whenever the bytes fit, refused otherwise. */
  lemma {:induction false} DecodeEncodedFrom(n: nat, rest: Bytes, i: nat)
    requires i <= 4
    ensures i + |EncodedLength(n)| <= 4 ==>
      DecodedLength(EncodedLength(n) + rest, i) == Length(n, i + |EncodedLength(n)|, rest)
    ensures i + |EncodedLength(n)| > 4 ==> DecodedLength(EncodedLength(n) + rest, i).BadLength?
    decreases 4 - i
  {
    var s := EncodedLength(n) + rest;
    if i < 4 {
      if n < 128 {
        assert s[0] == n && s[1..] == rest;
      } else {
        assert s[0] == n % 128 + 128 && s[1..] == EncodedLength(n / 128) + rest;
        DecodeEncodedFrom(n / 128, rest, i + 1);
      }
    }
  }

  /** The length code is exact below 2^28 and refused from there on. */
  lemma {:induction false} LengthRoundTrip(n: Uint32, rest: Bytes)
    ensures n < MAX_LENGTH ==>
      && DecodedLength(EncodedLength(n) + rest, 0) == Length(n, |EncodedLength(n)|, rest)
      && 1 <= |EncodedLength(n)| <= 4
    ensures n >= MAX_LENGTH ==>
      DecodedLength(EncodedLength(n) + rest, 0).BadLength? && |EncodedLength(n)| == 5
  {
    Pow128Four();
    EncodedLengthSize(n, 4);
    EncodedLengthSize(n, 5);
    DecodeEncodedFrom(n, rest, 0);
  }

  /** The first `n` bytes of `s` all carry the continuation bit. */
  ghost predicate Continued(s: Bytes, n: nat) {
    n <= |s| && forall j :: 0 <= j < n ==> s[j] >= 128
  }

  lemma ContinuedStep(s: Bytes, n: nat)
    requires n >= 1 && s != []
    ensures Continued(s, n) <==> s[0] >= 128 && Continued(s[1..], n - 1)
  {
    if s[0] >= 128 && Continued(s[1..], n - 1) {
      assert forall j :: 1 <= j < n ==> s[j] == s[1..][j - 1];
    }
    if Continued(s, n) {
      assert forall j :: 0 <= j < n - 1 ==> s[1..][j] == s[j + 1];
    }
  }

  lemma {:induction false} LengthReadShape(s: Bytes, i: nat)
    requires i <= 4 && DecodedLength(s, i).Length?
    ensures var r := DecodedLength(s, i); var k := r.size - i;
      && 1 <= k <= |s| && r.size <= 4 && r.rest == s[k..]
      && Continued(s, k - 1) && s[k - 1] < 128
    decreases 4 - i
  {
    if s[0] >= 128 {
      var r := DecodedLength(s[1..], i + 1);
      var k := r.size - i;
      LengthReadShape(s[1..], i + 1);
      hide DecodedLength;
      assert s[1..][k - 1..] == s[k..];
      ContinuedStep(s, k - 1);
    }
  }

  lemma {:induction false} LengthReadBound(s: Bytes, i: nat)
    requires i <= 4 && DecodedLength(s, i).Length?
    ensures var r := DecodedLength(s, i);
      r.size > i && r.value < Pow128(r.size - i)
    decreases 4 - i
  {
    if s[0] >= 128 {
      var r := DecodedLength(s[1..], i + 1);
      LengthReadBound(s[1..], i + 1);
      assert Pow128(r.size - i) == 128 * Pow128(r.size - i - 1);
    } else {
      assert Pow128(1) == 128 * Pow128(0);
    }
  }

  lemma {:induction false} BadLengthShape(s: Bytes, i: nat)
    requires i <= 4
    ensures DecodedLength(s, i).BadLength? <==> Continued(s, 4 - i)
    ensures DecodedLength(s, i).BadLength? ==> DecodedLength(s, i).rest == s[4 - i..]
    decreases 4 - i
  {
    if i < 4 && s != [] {
      ContinuedStep(s, 4 - i);
      BadLengthShape(s[1..], i + 1);
      if Continued(s, 4 - i) {
        assert s[1..][3 - i..] == s[4 - i..];
      }
    }
  }

  /** What a successful `decodeLength` says about its input, and when it fails. */
  lemma {:induction false} LengthConsumption(s: Bytes)
    ensures var r := DecodedLength(s, 0);
      && (r.Length? ==> 1 <= r.size <= 4 && r.size <= |s| && r.rest == s[r.size..] && r.value < MAX_LENGTH)
      && (r.BadLength? <==> Continued(s, 4))
      && (r.BadLength? ==> r.rest == s[4..])
  {
    BadLengthShape(s, 0);
    var r := DecodedLength(s, 0);
    if r.Length? {
      LengthReadShape(s, 0);
      LengthReadBound(s, 0);
      Pow128Four();
      Pow128Monotone(r.size, 4);
    }
  }

  lemma {:induction false} Pow128Monotone(a: nat, b: nat)
    requires a <= b
    ensures Pow128(a) <= Pow128(b)
  {
    if a < b { Pow128Monotone(a, b - 1); }
  }

  /** One turn of the loop in `decodeLength`. */
  lemma DecodedLengthStep(s: Bytes, i: nat)
    requires i <= 4
    ensures i == 4 ==> DecodedLength(s, i) == BadLength(s)
    ensures i < 4 && s == [] ==> DecodedLength(s, i) == CutOff
    ensures i < 4 && s != [] && s[0] < 128 ==> DecodedLength(s, i) == Length(s[0], i + 1, s[1..])
    ensures i < 4 && s != [] && s[0] >= 128 ==>
      var r := DecodedLength(s[1..], i + 1);
      DecodedLength(s, i) == if r.Length? then Length(s[0] % 128 + 128 * r.value, r.size, r.rest) else r
  {
  }

  lemma {:induction false} DecodedZero(s: Bytes, i: nat)
    requires i <= 4 && DecodedLength(s, i).Length?
    ensures var r := DecodedLength(s, i); var k := r.size - i;
      1 <= k <= |s| && (s[k - 1] != 0 ==> r.value > 0)
    decreases 4 - i
  {
    LengthReadShape(s, i);
    if s[0] >= 128 {
      DecodedZero(s[1..], i + 1);
    }
  }

  /** The minimal codings: one byte, or a last byte that is not zero. */
  ghost predicate Minimal(s: Bytes, k: nat)
    requires 1 <= k <= |s|
  {
    k == 1 || s[k - 1] != 0
  }

  /** A decoded length re-encodes to the bytes it came from exactly when they were minimal. */
  lemma {:induction false} ReencodeIffMinimal(s: Bytes, i: nat)
    requires i <= 4 && DecodedLength(s, i).Length?
    ensures var r := DecodedLength(s, i); var k := r.size - i;
      1 <= k <= |s| && (EncodedLength(r.value) == s[..k] <==> Minimal(s, k))
    decreases 4 - i
  {
    LengthReadShape(s, i);
    var r := DecodedLength(s, i);
    var k := r.size - i;
    if s[0] < 128 {
      assert s[..1] == [s[0]];
    } else {
      var v := DecodedLength(s[1..], i + 1).value;
      ReencodeStep(s, k, r.value, v);
      ReencodeIffMinimal(s[1..], i + 1);
      if Minimal(s, k) {
        DecodedZero(s[1..], i + 1);
      }
    }
  }

  lemma ReencodeStep(s: Bytes, k: nat, value: nat, v: nat)
    requires 2 <= k <= |s| && s[0] >= 128 && value == s[0] % 128 + 128 * v
    ensures v == 0 ==> EncodedLength(value) != s[..k]
    ensures v > 0 ==> (EncodedLength(value) == s[..k] <==> EncodedLength(v) == s[1..][..k - 1])
  {
    assert s[..k] == [s[0]] + s[1..][..k - 1];
    if v > 0 {
      assert EncodedLength(value) == [s[0]] + EncodedLength(v);
      assert EncodedLength(value)[1..] == EncodedLength(v);
      assert s[..k][1..] == s[1..][..k - 1];
    }
  }

  /** What follows a complete length does not influence how it is read. */
  lemma {:induction false} LengthIgnoresSuffix(s: Bytes, t: Bytes, i: nat)
    requires i <= 4
    ensures var r := DecodedLength(s, i);
      && (r.Length? ==> DecodedLength(s + t, i) == Length(r.value, r.size, r.rest + t))
      && (r.BadLength? ==> DecodedLength(s + t, i) == BadLength(r.rest + t))
    decreases 4 - i
  {
    if i < 4 && s != [] {
      assert (s + t)[0] == s[0] && (s + t)[1..] == s[1..] + t;
      if s[0] >= 128 {
        LengthIgnoresSuffix(s[1..], t, i + 1);
      }
    }
  }

  /** The base-128 number whose digits are the low seven bits of the bytes, least significant first. */
  function DigitSum(s: Bytes): nat {
    if s == [] then 0 else DigitSum(s[..|s| - 1]) + (s[|s| - 1] % 128) * Pow128(|s| - 1)
  }

  lemma {:induction false} DigitSumFirst(b: Byte, s: Bytes)
    ensures DigitSum([b] + s) == b % 128 + 128 * DigitSum(s)
  {
    var t := [b] + s;
    if s == [] {
      assert t[..0] == [];
      assert Pow128(0) == 1;
    } else {
      assert t[..|t| - 1] == [b] + s[..|s| - 1];
      DigitSumFirst(b, s[..|s| - 1]);
      assert Pow128(|s|) == 128 * Pow128(|s| - 1);
    }
  }

  /** A length that is read is that number. */
  lemma {:induction false} LengthIsDigitSum(s: Bytes, i: nat)
    requires i <= 4 && DecodedLength(s, i).Length?
    ensures var r := DecodedLength(s, i); i < r.size <= i + |s| && r.value == DigitSum(s[..r.size - i])
    decreases 4 - i
  {
    LengthReadShape(s, i);
    var r := DecodedLength(s, i);
    if s[0] < 128 {
      assert s[..1] == [s[0]] + [];
      DigitSumFirst(s[0], []);
    } else {
      LengthIsDigitSum(s[1..], i + 1);
      var k := r.size - i;
      assert s[..k] == [s[0]] + s[1..][..k - 1];
      DigitSumFirst(s[0], s[1..][..k - 1]);
    }
  }

  // ----- field readers -----

  function GetUint8(s: Bytes, left: Uint32): Parsed<Byte> {
    if left < 1 then Threw(DataExceedsPacket)
    else if s == [] then Threw(SocketClose)
    else Got(s[0], s[1..], left - 1)
  }

  function GetUint16(s: Bytes, left: Uint32): Parsed<Uint16> {
    if left < 2 then Threw(DataExceedsPacket)
    else if |s| < 2 then Threw(SocketClose)
    else Got(s[0] as int * 256 + s[1], s[2..], left - 2)
  }

  /** `getString` and `getData`. The length -1 of a refused length code makes
      `packetRemaining` grow by one and is then compared as 2^32-1. */
  function GetString(s: Bytes, left: Uint32): Parsed<Bytes> {
    match DecodedLength(s, 0)
    case CutOff => Threw(SocketClose)
    case BadLength(_) =>
      if Sub32(left, -1) < WORD - 1 then Threw(DataExceedsPacket) else Undefined
    case Length(n, k, rest) =>
      var left1 := Sub32(left, k);
      if left1 < n then Threw(DataExceedsPacket)
      else if |rest| < n then Threw(SocketClose)
      else Got(rest[..n], rest[n..], left1 - n)
  }

  /** `getGzipString` and `getGzipData`: an empty field is not decompressed. */
  function GetGzipString(gz: Gzip, s: Bytes, left: Uint32): Parsed<Bytes> {
    var (raw, rest, left1) :- GetString(s, left);
    if raw == [] then Got([], rest, left1)
    else match gz.uncompress(raw)
         case None => Threw(UngzipError)
         case Some(text) => Got(text, rest, left1)
  }

  /** `n` bytes were taken off `s`, leaving `t`, and the counter moved by `n` modulo 2^32. */
  ghost predicate Moved(s: Bytes, left: Uint32, n: nat, t: Bytes, left': Uint32) {
    n <= |s| && t == s[n..] && left' == Sub32(left, n)
  }

  ghost predicate Took<T>(s: Bytes, left: Uint32, p: Parsed<T>, n: nat) {
    p.Got? && Moved(s, left, n, p.rest, p.left)
  }

  lemma MovedTwice(s: Bytes, a: Uint32, m: nat, t: Bytes, b: Uint32, n: nat, u: Bytes, c: Uint32)
    requires Moved(s, a, m, t, b) && Moved(t, b, n, u, c)
    ensures Moved(s, a, m + n, u, c)
  {
    assert s[m..][n..] == s[m + n..];
    Sub32Twice(a, m, n);
  }

  lemma GetUintsTake(s: Bytes, left: Uint32)
    ensures GetUint8(s, left).Got? ==> Took(s, left, GetUint8(s, left), 1)
    ensures GetUint16(s, left).Got? ==> Took(s, left, GetUint16(s, left), 2)
  {
  }

  /** The number of bytes of a length-prefixed field at the head of `s`. */
  function FieldSize(s: Bytes): nat {
    match DecodedLength(s, 0)
    case Length(n, k, _) => k + n
    case _ => 0
  }

  lemma GetStringTakes(s: Bytes, left: Uint32)
    ensures GetString(s, left).Got? ==>
      && Took(s, left, GetString(s, left), FieldSize(s))
      && 1 <= FieldSize(s) < MAX_LENGTH + 4
  {
    hide DecodedLength;
    LengthConsumption(s);
    var r := DecodedLength(s, 0);
    if GetString(s, left).Got? {
      assert s[r.size..][r.value..] == s[r.size + r.value..];
      Sub32Twice(left, r.size, r.value);
    }
  }

  lemma Sub32Twice(a: int, j: int, k: int)
    ensures Sub32(Sub32(a, j), k) == Sub32(a, j + k)
  {
    var q := (a - j) / WORD;
    assert a - j == q * WORD + Sub32(a, j);
    var p := (Sub32(a, j) - k) / WORD;
    assert Sub32(a, j) - k == p * WORD + Sub32(Sub32(a, j), k);
    assert a - (j + k) == (q + p) * WORD + Sub32(Sub32(a, j), k);
    ModUnique(a - (j + k), q + p, Sub32(Sub32(a, j), k));
  }

  lemma ModUnique(x: int, q: int, r: int)
    requires x == q * WORD + r && 0 <= r < WORD
    ensures x % WORD == r
  {
  }

  lemma GetGzipStringTakes(gz: Gzip, s: Bytes, left: Uint32)
    ensures GetGzipString(gz, s, left).Got? ==>
      && Took(s, left, GetGzipString(gz, s, left), FieldSize(s))
      && 1 <= FieldSize(s) < MAX_LENGTH + 4
  {
    hide GetString, FieldSize;
    GetStringTakes(s, left);
  }

  /** `char buf[-1]` is declared exactly when the length code is refused while the counter,
      already decremented below zero by an earlier length, stands at 2^32-2. */
  lemma {:induction false} GetStringUndefinedIff(s: Bytes, left: Uint32)
    ensures GetString(s, left).Undefined? <==>
      left == WORD - 2 && Continued(s, 4)
  {
    hide DecodedLength;
    LengthConsumption(s);
    assert Sub32(left, -1) == if left == WORD - 1 then 0 else left + 1;
  }

  // ----- field writers -----

  /** `setUint16`: big-endian. */
  function SetUint16(v: Uint16): Bytes { [v / 256, v % 256] }

  /** `setString` and `setData`: the length goes through a 32-bit conversion. */
  function SetString(v: Bytes): Bytes { EncodedLength(|v| % WORD) + v }

  function SetGzipString(gz: Gzip, v: Bytes): Written<Bytes> {
    match gz.compress(v)
    case None => Failed(GzipError)
    case Some(packed) => Wrote(EncodedLength(|packed| % WORD) + packed)
  }

  /** `setGzipData` writes nothing at all for empty data. */
  function SetGzipData(gz: Gzip, v: Bytes): Written<Bytes> {
    if v == [] then Wrote([]) else SetGzipString(gz, v)
  }

  /** The two bytes are ordered as the numbers are: the more significant one comes first. */
  lemma {:induction false} Uint16Order(v: Uint16, w: Uint16)
    ensures var a, b := SetUint16(v), SetUint16(w);
      |a| == |b| == 2 && (v < w <==> a[0] < b[0] || (a[0] == b[0] && a[1] < b[1]))
  {
  }

  lemma {:induction false} Uint16RoundTrip(v: Uint16, rest: Bytes, left: Uint32)
    ensures left >= 2 ==> GetUint16(SetUint16(v) + rest, left) == Got(v, rest, left - 2)
  {
    assert (SetUint16(v) + rest)[2..] == rest;
  }

  lemma StringRoundTrip(v: Bytes, rest: Bytes, left: Uint32)
    requires |v| < MAX_LENGTH && |SetString(v)| <= left
    ensures GetString(SetString(v) + rest, left) == Got(v, rest, left - |SetString(v)|)
  {
    hide DecodedLength, EncodedLength;
    var code := EncodedLength(|v|);
    LengthRoundTrip(|v|, v + rest);
    assert SetString(v) + rest == code + (v + rest);
    assert Sub32(left, |code|) == left - |code|;
    assert (v + rest)[..|v|] == v && (v + rest)[|v|..] == rest;
  }

  lemma GzipStringRoundTrip(gz: Gzip, v: Bytes, rest: Bytes, left: Uint32)
    requires gz.Inverse() && SetGzipString(gz, v).Wrote?
    requires |SetGzipString(gz, v).value| <= left && |SetGzipString(gz, v).value| <= MAX_LENGTH
    ensures GetGzipString(gz, SetGzipString(gz, v).value + rest, left) ==
      Got(v, rest, left - |SetGzipString(gz, v).value|)
  {
    hide GetString, EncodedLength;
    var packed := gz.compress(v).value;
    assert |packed| < MAX_LENGTH;
    assert SetGzipString(gz, v).value == SetString(packed);
    StringRoundTrip(packed, rest, left);
  }

  /** What follows a complete field does not influence how it is read. */
  lemma GetStringIgnoresSuffix(s: Bytes, t: Bytes, left: Uint32)
    ensures var p := GetString(s, left);
      p.Got? ==> GetString(s + t, left) == Got(p.value, p.rest + t, p.left)
  {
    hide DecodedLength;
    LengthIgnoresSuffix(s, t, 0);
    var r := DecodedLength(s, 0);
    if GetString(s, left).Got? {
      assert (r.rest + t)[..r.value] == r.rest[..r.value];
      assert (r.rest + t)[r.value..] == r.rest[r.value..] + t;
    }
  }

  lemma GetUintsIgnoreSuffix(s: Bytes, t: Bytes, left: Uint32)
    ensures var p := GetUint8(s, left);
      p.Got? ==> GetUint8(s + t, left) == Got(p.value, p.rest + t, p.left)
    ensures var p := GetUint16(s, left);
      p.Got? ==> GetUint16(s + t, left) == Got(p.value, p.rest + t, p.left)
  {
    if |s| >= 1 { assert (s + t)[1..] == s[1..] + t; }
    if |s| >= 2 { assert (s + t)[2..] == s[2..] + t; }
  }
}
