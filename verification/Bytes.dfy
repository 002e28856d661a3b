/** Big-endian integers and UTF-8, as Rust's standard library reads them. */
module Bytes {
  import opened Text

  type byte = x: int | 0 <= x < 256

  const TWO_31: int := 0x8000_0000
  const TWO_32: int := 0x1_0000_0000

  // -------------------------------------------------------------------------
  // Integers

  /** The four bytes of `n as u32`, most significant first. */
  function Be32(n: int): (bytes: seq<byte>)
    ensures |bytes| == 4
  {
    var u := n % TWO_32;
    [u / 0x100_0000, u / 0x1_0000 % 0x100, u / 0x100 % 0x100, u % 0x100]
  }

  function ReadU32(buf: seq<byte>): (u: int)
    requires |buf| >= 4
    ensures 0 <= u < TWO_32
  {
    var (a: int, b: int, c: int, d: int) := (buf[0], buf[1], buf[2], buf[3]);
    a * 0x100_0000 + b * 0x1_0000 + c * 0x100 + d
  }

  /** `i32::from_be_bytes`. */
  function ReadI32(buf: seq<byte>): (n: int)
    requires |buf| >= 4
    ensures -TWO_31 <= n < TWO_31
  {
    var u := ReadU32(buf);
    if u < TWO_31 then u else u - TWO_32
  }

  lemma Digits(u: int)
    requires 0 <= u < TWO_32
    ensures u == u / 0x100_0000 * 0x100_0000 + u / 0x1_0000 % 0x100 * 0x1_0000 + u / 0x100 % 0x100 * 0x100 + u % 0x100
  {
    var q1 := u / 0x100;
    var q2 := q1 / 0x100;
    assert u == q1 * 0x100 + u % 0x100;
    assert q1 == q2 * 0x100 + q1 % 0x100;
    assert q2 == u / 0x1_0000;
    assert q2 == q2 / 0x100 * 0x100 + q2 % 0x100;
    assert q2 / 0x100 == u / 0x100_0000;
  }

  lemma ReadBe32Low(u: int, rest: seq<byte>)
    requires 0 <= u < TWO_32
    ensures ReadU32(Be32(u) + rest) == u
  {
    Digits(u);
    assert u % TWO_32 == u;
  }

  lemma ReadBe32(n: int, rest: seq<byte>)
    requires -TWO_31 <= n < TWO_31
    ensures ReadI32(Be32(n) + rest) == n
    ensures (Be32(n) + rest)[4..] == rest
    ensures n >= 0 ==> ReadU32(Be32(n) + rest) == n
  {
    var u := n % TWO_32;
    assert u == if n < 0 then n + TWO_32 else n;
    assert u % TWO_32 == u;
    assert Be32(n) == Be32(u);
    ReadBe32Low(u, rest);
  }

  /** `i64::from_be_bytes` of eight bytes: the high half signed, the low half not. */
  function ReadI64(buf: seq<byte>): (n: int)
    requires |buf| >= 8
    ensures I64_MIN <= n <= I64_MAX
  {
    ReadI32(buf) * TWO_32 + ReadU32(buf[4..])
  }

  function Be64(n: int): (bytes: seq<byte>)
    ensures |bytes| == 8
  {
    Be32(n / TWO_32) + Be32(n % TWO_32)
  }

  lemma ReadBe64(n: int)
    requires I64_MIN <= n <= I64_MAX
    ensures ReadI64(Be64(n)) == n
  {
    var low := Be32(n % TWO_32);
    ReadBe32(n / TWO_32, low);
    ReadBe32Low(n % TWO_32, []);
    assert low + [] == low;
  }

  // -------------------------------------------------------------------------
  // UTF-8

  predicate IsScalar(n: int) {
    0 <= n < 0xD800 || 0xE000 <= n < 0x11_0000
  }

  function EncodeChar(c: char): (bytes: seq<byte>)
    ensures 1 <= |bytes| <= 4
  {
    var n := c as int;
    if n < 0x80 then [n]
    else if n < 0x800 then [0xC0 + n / 0x40, 0x80 + n % 0x40]
    else if n < 0x1_0000 then [0xE0 + n / 0x1000, 0x80 + n / 0x40 % 0x40, 0x80 + n % 0x40]
    else [0xF0 + n / 0x4_0000, 0x80 + n / 0x1000 % 0x40, 0x80 + n / 0x40 % 0x40, 0x80 + n % 0x40]
  }

  function EncodeUtf8(s: string): seq<byte> {
    if s == "" then [] else EncodeChar(s[0]) + EncodeUtf8(s[1..])
  }

  /** The length of the sequence that `first` starts, or 0 if it starts none. */
  function SequenceLength(first: byte): nat {
    if first < 0x80 then 1
    else if first < 0xC0 then 0
    else if first < 0xE0 then 2
    else if first < 0xF0 then 3
    else if first < 0xF8 then 4
    else 0
  }

  predicate AreContinuations(bytes: seq<byte>) {
    forall i :: 0 <= i < |bytes| ==> 0x80 <= bytes[i] < 0xC0
  }

  /** The bits a byte of a sequence carries besides its marker. */
  function Payload(b: int, marker: int): int {
    b - marker
  }

  /** The number a well-formed sequence of length `n` carries; -1 if it is overlong. */
  function SequenceValue(bytes: seq<byte>, n: nat): int
    requires |bytes| >= n && n > 0
  {
    if n == 1 then bytes[0]
    else if n == 2 then
      var v := Payload(bytes[0], 0xC0) * 0x40 + Payload(bytes[1], 0x80);
      if v < 0x80 then -1 else v
    else if n == 3 then
      var v := Payload(bytes[0], 0xE0) * 0x1000 + Payload(bytes[1], 0x80) * 0x40 + Payload(bytes[2], 0x80);
      if v < 0x800 then -1 else v
    else if n == 4 then
      var v := Payload(bytes[0], 0xF0) * 0x4_0000 + Payload(bytes[1], 0x80) * 0x1000 + Payload(bytes[2], 0x80) * 0x40
               + Payload(bytes[3], 0x80);
      if v < 0x1_0000 then -1 else v
    else -1
  }

  /** `String::from_utf8`: shortest forms of Unicode scalar values only. */
  function DecodeUtf8(bytes: seq<byte>): Option<string> {
    if bytes == [] then Some("")
    else
      var n := SequenceLength(bytes[0]);
      if n == 0 || |bytes| < n || !AreContinuations(bytes[1..n]) || !IsScalar(SequenceValue(bytes, n)) then None
      else
        match DecodeUtf8(bytes[n..]) {
          case None => None
          case Some(rest) => Some([SequenceValue(bytes, n) as char] + rest)
        }
  }

  lemma CharRoundTrip(c: char, rest: seq<byte>)
    ensures var bytes := EncodeChar(c) + rest; var n := SequenceLength(bytes[0]);
            && n == |EncodeChar(c)| && AreContinuations(bytes[1..n]) && SequenceValue(bytes, n) == c as int
            && bytes[n..] == rest
  {
    var n := c as int;
    assert n / 0x40 / 0x40 == n / 0x1000 && n / 0x1000 / 0x40 == n / 0x4_0000;
    var bytes := EncodeChar(c) + rest;
    var k := |EncodeChar(c)|;
    assert forall i :: 0 <= i < k ==> bytes[i] == EncodeChar(c)[i];
  }

  lemma {:induction false} Utf8RoundTrip(s: string)
    ensures DecodeUtf8(EncodeUtf8(s)) == Some(s)
  {
    if s != "" {
      var rest := EncodeUtf8(s[1..]);
      CharRoundTrip(s[0], rest);
      Utf8RoundTrip(s[1..]);
      assert IsScalar(s[0] as int);
      assert [s[0]] + s[1..] == s;
    }
  }

  // -------------------------------------------------------------------------
  // Only valid UTF-8 is read

  lemma SequenceIsChar(bytes: seq<byte>, n: nat)
    requires bytes != [] && n == SequenceLength(bytes[0]) && 0 < n <= |bytes| && AreContinuations(bytes[1..n])
    requires IsScalar(SequenceValue(bytes, n))
    ensures EncodeChar(SequenceValue(bytes, n) as char) == bytes[..n]
  {
    assert forall i :: 1 <= i < n ==> bytes[i] == bytes[1..n][i - 1];
    if n == 1 {
      assert bytes[..1] == [bytes[0]];
    } else if n == 2 {
      TwoBytes(bytes[0], bytes[1]);
      assert bytes[..2] == [bytes[0], bytes[1]];
    } else if n == 3 {
      ThreeBytes(bytes[0], bytes[1], bytes[2]);
      assert bytes[..3] == [bytes[0], bytes[1], bytes[2]];
    } else {
      FourBytes(bytes[0], bytes[1], bytes[2], bytes[3]);
      assert bytes[..4] == [bytes[0], bytes[1], bytes[2], bytes[3]];
    }
  }

  lemma TwoBytes(a: byte, b: byte)
    requires 0xC0 <= a < 0xE0 && 0x80 <= b < 0xC0
    ensures var v := Payload(a, 0xC0) * 0x40 + Payload(b, 0x80);
            v < 0x800 && 0xC0 + v / 0x40 == a && 0x80 + v % 0x40 == b
  {
  }

  lemma ThreeBytes(a: byte, b: byte, c: byte)
    requires 0xE0 <= a < 0xF0 && 0x80 <= b < 0xC0 && 0x80 <= c < 0xC0
    ensures var v := Payload(a, 0xE0) * 0x1000 + Payload(b, 0x80) * 0x40 + Payload(c, 0x80);
            v < 0x1_0000 && 0xE0 + v / 0x1000 == a && 0x80 + v / 0x40 % 0x40 == b && 0x80 + v % 0x40 == c
  {
  }

  lemma FourBytes(a: byte, b: byte, c: byte, d: byte)
    requires 0xF0 <= a < 0xF8 && 0x80 <= b < 0xC0 && 0x80 <= c < 0xC0 && 0x80 <= d < 0xC0
    ensures var v := Payload(a, 0xF0) * 0x4_0000 + Payload(b, 0x80) * 0x1000 + Payload(c, 0x80) * 0x40
            + Payload(d, 0x80);
            && 0xF0 + v / 0x4_0000 == a && 0x80 + v / 0x1000 % 0x40 == b
            && 0x80 + v / 0x40 % 0x40 == c && 0x80 + v % 0x40 == d
  {
    FourDigits(Payload(a, 0xF0), Payload(b, 0x80), Payload(c, 0x80), Payload(d, 0x80));
  }

  lemma FourDigits(x: nat, y: nat, z: nat, w: nat)
    requires y < 0x40 && z < 0x40 && w < 0x40
    ensures var v := x * 0x4_0000 + y * 0x1000 + z * 0x40 + w;
            && v / 0x4_0000 == x && v / 0x1000 % 0x40 == y && v / 0x40 % 0x40 == z && v % 0x40 == w
  {
    var v := x * 0x4_0000 + y * 0x1000 + z * 0x40 + w;
    var upper, top := x * 0x1000 + y * 0x40 + z, x * 0x40 + y;
    assert v == 0x40 * upper + w;
    assert v == 0x1000 * top + (0x40 * z + w);
    assert v / 0x40 == upper && v / 0x1000 == top;
  }

  /** Bytes are read as text exactly if they are the encoding of that text. */
  lemma {:induction false} Utf8Exactly(bytes: seq<byte>, s: string)
    ensures DecodeUtf8(bytes) == Some(s) <==> bytes == EncodeUtf8(s)
  {
    if bytes == EncodeUtf8(s) {
      Utf8RoundTrip(s);
    } else if DecodeUtf8(bytes) == Some(s) {
      ReadIsEncoding(bytes);
    }
  }

  lemma {:induction false} ReadIsEncoding(bytes: seq<byte>)
    requires DecodeUtf8(bytes).Some?
    ensures EncodeUtf8(DecodeUtf8(bytes).value) == bytes
  {
    if bytes != [] {
      var n := SequenceLength(bytes[0]);
      SequenceIsChar(bytes, n);
      ReadIsEncoding(bytes[n..]);
      EncodeCons(SequenceValue(bytes, n) as char, DecodeUtf8(bytes[n..]).value);
      SplitAt(bytes, n);
    }
  }

  lemma SplitAt(bytes: seq<byte>, n: nat)
    requires n <= |bytes|
    ensures bytes[..n] + bytes[n..] == bytes
  {
  }

  lemma EncodeCons(c: char, rest: string)
    ensures EncodeUtf8([c] + rest) == EncodeChar(c) + EncodeUtf8(rest)
  {
    assert ([c] + rest)[1..] == rest;
  }
}
