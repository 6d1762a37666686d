/** The registry's REG_TZI_FORMAT value and GetRegTziFormat
    (Source/TimeZone.cs:230-262, 513-539).

    The value is 44 bytes, little-endian, laid out as the sequential struct
    REG_TZI_FORMAT: three 32-bit signed ints (Bias, StandardBias,
    DaylightBias) at bytes 0-11, then two SYSTEMTIME blocks (StandardDate at
    12-27, DaylightDate at 28-43) of eight unsigned 16-bit fields each. */
module RegTzi {
  import opened Wrappers
  import opened Clr

  newtype byte = x: int | 0 <= x < 0x100

  const TziSize: nat := 44
  const SystemTimeSize: nat := 16

  /** SYSTEMTIME (Source/TimeZone.cs:231-249). */
  datatype SystemTime = SystemTime(
    year: u16, month: u16, dayOfWeek: u16, day: u16,
    hour: u16, minute: u16, second: u16, milliseconds: u16)

  /** REG_TZI_FORMAT (Source/TimeZone.cs:252-262). */
  datatype RegTziFormat = RegTziFormat(
    bias: i32, standardBias: i32, daylightBias: i32,
    standardDate: SystemTime, daylightDate: SystemTime)

  /** `new REG_TZI_FORMAT()`: every field zero. */
  const ZeroTime := SystemTime(0, 0, 0, 0, 0, 0, 0, 0)
  const ZeroTzi := RegTziFormat(0, 0, 0, ZeroTime, ZeroTime)

  // ---- Little-endian fields

  function U16At(b: seq<byte>, off: nat): u16
    requires off + 2 <= |b|
  {
    b[off] as int + 0x100 * b[off + 1] as int
  }

  /** Two's complement: an unsigned value of 2^31 or more is negative. */
  function I32At(b: seq<byte>, off: nat): i32
    requires off + 4 <= |b|
  {
    var u := b[off] as int + 0x100 * b[off + 1] as int
             + 0x1_0000 * b[off + 2] as int + 0x100_0000 * b[off + 3] as int;
    if u < 0x8000_0000 then u else u - 0x1_0000_0000
  }

  function U16Bytes(v: u16): (b: seq<byte>)
    ensures |b| == 2
  {
    [(v % 0x100) as byte, (v / 0x100) as byte]
  }

  function I32Bytes(v: i32): (b: seq<byte>)
    ensures |b| == 4
  {
    var u := if v < 0 then v + 0x1_0000_0000 else v;
    [(u % 0x100) as byte, (u / 0x100 % 0x100) as byte,
     (u / 0x1_0000 % 0x100) as byte, (u / 0x100_0000) as byte]
  }

  lemma U16RoundTrip(v: u16)
    ensures U16At(U16Bytes(v), 0) == v
  {
  }

  lemma U16BytesOf(b: seq<byte>, off: nat)
    requires off + 2 <= |b|
    ensures U16Bytes(U16At(b, off)) == b[off..off + 2]
  {
    var v := U16At(b, off);
    assert v % 0x100 == b[off] as int && v / 0x100 == b[off + 1] as int;
  }

  lemma I32RoundTrip(v: i32)
    ensures I32At(I32Bytes(v), 0) == v
  {
    var u := if v < 0 then v + 0x1_0000_0000 else v;
    var b0, r0 := u % 0x100, u / 0x100;
    var b1, r1 := r0 % 0x100, r0 / 0x100;
    var b2, b3 := r1 % 0x100, r1 / 0x100;
    assert u == b0 + 0x100 * (b1 + 0x100 * (b2 + 0x100 * b3));
    assert r0 / 0x100 == u / 0x1_0000;
    assert r1 / 0x100 == u / 0x100_0000;
  }

  lemma I32BytesOf(b: seq<byte>, off: nat)
    requires off + 4 <= |b|
    ensures I32Bytes(I32At(b, off)) == b[off..off + 4]
  {
    var b0, b1, b2, b3 := b[off] as int, b[off + 1] as int, b[off + 2] as int, b[off + 3] as int;
    var u := b0 + 0x100 * (b1 + 0x100 * (b2 + 0x100 * b3));
    assert u == b0 + 0x100 * b1 + 0x1_0000 * b2 + 0x100_0000 * b3;
    assert u % 0x100 == b0 && u / 0x100 == b1 + 0x100 * (b2 + 0x100 * b3);
    var r0 := u / 0x100;
    assert r0 % 0x100 == b1 && r0 / 0x100 == b2 + 0x100 * b3;
    var r1 := r0 / 0x100;
    assert r1 % 0x100 == b2 && r1 / 0x100 == b3;
    assert u / 0x1_0000 == r1;
    assert u / 0x100_0000 == b3;
  }

  // ---- SYSTEMTIME blocks

  function SystemTimeAt(b: seq<byte>, off: nat): SystemTime
    requires off + SystemTimeSize <= |b|
  {
    SystemTime(U16At(b, off), U16At(b, off + 2), U16At(b, off + 4), U16At(b, off + 6),
               U16At(b, off + 8), U16At(b, off + 10), U16At(b, off + 12), U16At(b, off + 14))
  }

  function SystemTimeBytes(t: SystemTime): (b: seq<byte>)
    ensures |b| == SystemTimeSize
  {
    U16Bytes(t.year) + U16Bytes(t.month) + U16Bytes(t.dayOfWeek) + U16Bytes(t.day)
    + U16Bytes(t.hour) + U16Bytes(t.minute) + U16Bytes(t.second) + U16Bytes(t.milliseconds)
  }

  // ---- The whole value

  /** The bytes the registry would have to hold for `r` to be read back. */
  function EncodeTzi(r: RegTziFormat): (b: seq<byte>)
    ensures |b| == TziSize
  {
    I32Bytes(r.bias) + I32Bytes(r.standardBias) + I32Bytes(r.daylightBias)
    + SystemTimeBytes(r.standardDate) + SystemTimeBytes(r.daylightDate)
  }

  /** The bytes of a 44-byte value read as the sequential struct, field by
      field at the offsets of its layout. */
  function ReadTzi(b: seq<byte>): RegTziFormat
    requires |b| == TziSize
  {
    RegTziFormat(I32At(b, 0), I32At(b, 4), I32At(b, 8), SystemTimeAt(b, 12), SystemTimeAt(b, 28))
  }

  /** The decode of GetRegTziFormat (Source/TimeZone.cs:523-531): a missing
      value (null, or not a byte array) or one whose length is not 44 throws
      inside the try, and the all-zero record is kept; otherwise the bytes are
      read as the sequential struct. */
  function DecodeTzi(value: Option<seq<byte>>): (r: RegTziFormat)
    ensures match value
      case Some(b) => if |b| == TziSize then EncodeTzi(r) == b else r == ZeroTzi
      case None => r == ZeroTzi
  {
    match value
    case None => ZeroTzi
    case Some(b) =>
      if |b| != TziSize then ZeroTzi
      else
        EncodeDecode(b);
        ReadTzi(b)
  }

  // ---- Reading a field back from the bytes that encode it

  lemma U16Read(b: seq<byte>, off: nat, v: u16)
    requires off + 2 <= |b| && b[off] == U16Bytes(v)[0] && b[off + 1] == U16Bytes(v)[1]
    ensures U16At(b, off) == v
  {
    U16RoundTrip(v);
  }

  lemma I32Read(b: seq<byte>, off: nat, v: i32)
    requires off + 4 <= |b| && b[off..off + 4] == I32Bytes(v)
    ensures I32At(b, off) == v
  {
    I32RoundTrip(v);
    var w := I32Bytes(v);
    assert b[off] == w[0] && b[off + 1] == w[1] && b[off + 2] == w[2] && b[off + 3] == w[3];
  }

  lemma SystemTimeRead(b: seq<byte>, off: nat, t: SystemTime)
    requires off + SystemTimeSize <= |b| && b[off..off + SystemTimeSize] == SystemTimeBytes(t)
    ensures SystemTimeAt(b, off) == t
  {
    var s := SystemTimeBytes(t);
    forall k | 0 <= k < SystemTimeSize ensures b[off + k] == s[k] {
      assert b[off..off + SystemTimeSize][k] == s[k];
    }
    var p := U16Bytes(t.year) + U16Bytes(t.month) + U16Bytes(t.dayOfWeek) + U16Bytes(t.day);
    assert s == p + (U16Bytes(t.hour) + U16Bytes(t.minute) + U16Bytes(t.second) + U16Bytes(t.milliseconds));
    U16Read(b, off, t.year);
    U16Read(b, off + 2, t.month);
    U16Read(b, off + 4, t.dayOfWeek);
    U16Read(b, off + 6, t.day);
    U16Read(b, off + 8, t.hour);
    U16Read(b, off + 10, t.minute);
    U16Read(b, off + 12, t.second);
    U16Read(b, off + 14, t.milliseconds);
  }

  lemma SystemTimeBytesOf(b: seq<byte>, off: nat)
    requires off + SystemTimeSize <= |b|
    ensures SystemTimeBytes(SystemTimeAt(b, off)) == b[off..off + SystemTimeSize]
  {
    U16BytesOf(b, off);
    U16BytesOf(b, off + 2);
    U16BytesOf(b, off + 4);
    U16BytesOf(b, off + 6);
    U16BytesOf(b, off + 8);
    U16BytesOf(b, off + 10);
    U16BytesOf(b, off + 12);
    U16BytesOf(b, off + 14);
    assert b[off..off + SystemTimeSize] == b[off..off + 2] + b[off + 2..off + 4] + b[off + 4..off + 6] + b[off + 6..off + 8]
      + b[off + 8..off + 10] + b[off + 10..off + 12] + b[off + 12..off + 14] + b[off + 14..off + 16];
  }

  /** Decoding what EncodeTzi wrote gives the record back: the layout loses
      nothing. */
  lemma DecodeEncode(r: RegTziFormat)
    ensures ReadTzi(EncodeTzi(r)) == r
  {
    var b := EncodeTzi(r);
    assert b[0..4] == I32Bytes(r.bias);
    assert b[4..8] == I32Bytes(r.standardBias);
    assert b[8..12] == I32Bytes(r.daylightBias);
    assert b[12..28] == SystemTimeBytes(r.standardDate);
    assert b[28..44] == SystemTimeBytes(r.daylightDate);
    I32Read(b, 0, r.bias);
    I32Read(b, 4, r.standardBias);
    I32Read(b, 8, r.daylightBias);
    SystemTimeRead(b, 12, r.standardDate);
    SystemTimeRead(b, 28, r.daylightDate);
  }

  /** Every 44-byte value is the encoding of what it decodes to: the decode
      reads every byte and no two values decode alike. */
  lemma EncodeDecode(b: seq<byte>)
    requires |b| == TziSize
    ensures EncodeTzi(ReadTzi(b)) == b
  {
    I32BytesOf(b, 0);
    I32BytesOf(b, 4);
    I32BytesOf(b, 8);
    SystemTimeBytesOf(b, 12);
    SystemTimeBytesOf(b, 28);
    assert b == b[0..4] + b[4..8] + b[8..12] + b[12..28] + b[28..44];
  }
  // ---- GetRegTziFormat

  /** The TZI value stored under a subkey of the registry key "Time Zones",
      given as a map from subkey name to value. `None` stands for a missing
      subkey (First() throws on the empty match), a missing value, or a value
      that is not a byte array (the cast throws). */
  function StoredTzi(timeZones: map<string, Option<seq<byte>>>, name: string): Option<seq<byte>>
  {
    if name in timeZones then timeZones[name] else None
  }

  /** GetRegTziFormat (Source/TimeZone.cs:514-539): the record read from the
      registry is the one whose encoding is exactly the stored 44 bytes, and
      on every failure it is the all-zero record. */
  function GetRegTziFormat(timeZones: map<string, Option<seq<byte>>>, name: string): (r: RegTziFormat)
    ensures match StoredTzi(timeZones, name)
      case Some(b) => if |b| == TziSize then EncodeTzi(r) == b else r == ZeroTzi
      case None => r == ZeroTzi
  {
    DecodeTzi(StoredTzi(timeZones, name))
  }
}
