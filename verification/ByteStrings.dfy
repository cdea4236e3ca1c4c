/** Byte strings: big-endian integers, concatenation of buffers, and padding. */
module ByteStrings {

  type Byte = n: int | 0 <= n < 0x100
  type Word16 = n: int | 0 <= n < 0x1_0000
  type Word32 = n: int | 0 <= n < 0x1_0000_0000
  type Bytes = seq<Byte>

  // ----- big-endian integers

  function Put16(n: Word16): Bytes {
    [n / 0x100, n % 0x100]
  }

  function Get16(b: Bytes): Word16
    requires |b| == 2
  {
    b[0] as int * 0x100 + b[1] as int
  }

  function Put32(n: Word32): Bytes {
    Put16(n / 0x1_0000) + Put16(n % 0x1_0000)
  }

  function Get32(b: Bytes): Word32
    requires |b| == 4
  {
    Get16(b[..2]) as int * 0x1_0000 + Get16(b[2..]) as int
  }

  lemma Word16RoundTrip(n: Word16, b: Bytes)
    ensures |Put16(n)| == 2 && Get16(Put16(n)) == n
    ensures |b| == 2 ==> Put16(Get16(b)) == b
  {}

  lemma Word32RoundTrip(n: Word32, b: Bytes)
    ensures |Put32(n)| == 4 && Get32(Put32(n)) == n
    ensures |b| == 4 ==> Put32(Get32(b)) == b
  {
    hide Get16, Put16;
    var high, low := Put16(n / 0x1_0000), Put16(n % 0x1_0000);
    Word16RoundTrip(n / 0x1_0000, high);
    Word16RoundTrip(n % 0x1_0000, low);
    assert Put32(n)[..2] == high && Put32(n)[2..] == low;
    if |b| == 4 {
      Word16RoundTrip(0, b[..2]);
      Word16RoundTrip(0, b[2..]);
      assert b == b[..2] + b[2..];
    }
  }

  /** The number that these bytes are, the most significant one first. */
  function Number(b: Bytes): nat
    decreases |b|
  {
    if b == [] then 0 else 0x100 * Number(b[..|b| - 1]) + b[|b| - 1]
  }

  lemma NumberSnoc(b: Bytes, last: Byte)
    ensures Number(b + [last]) == 0x100 * Number(b) + last
  {
    assert (b + [last])[..|b|] == b;
  }

  lemma NumberPut16(n: Word16)
    ensures |Put16(n)| == 2 && Number(Put16(n)) == n
  {
    NumberSnoc([], n / 0x100);
    NumberSnoc([n / 0x100], n % 0x100);
    assert [] + [n / 0x100] == [n / 0x100] && [n / 0x100] + [n % 0x100] == Put16(n);
  }

  lemma NumberOfFour(a: Byte, b: Byte, c: Byte, d: Byte)
    ensures Number([a, b, c, d]) == 0x100_0000 * a + 0x1_0000 * b + 0x100 * c + d
  {
    NumberSnoc([], a);
    NumberSnoc([a], b);
    NumberSnoc([a, b], c);
    NumberSnoc([a, b, c], d);
    assert [] + [a] == [a] && [a] + [b] == [a, b] && [a, b] + [c] == [a, b, c] && [a, b, c] + [d] == [a, b, c, d];
  }

  lemma NumberPut32(n: Word32)
    ensures |Put32(n)| == 4 && Number(Put32(n)) == n
  {
    var b := Put32(n);
    assert b == [b[0], b[1], b[2], b[3]];
    NumberOfFour(b[0], b[1], b[2], b[3]);
    hide Number;
  }

  // ----- buffers

  /** b''.join(buffers) */
  function Joined(buffers: seq<Bytes>): Bytes
    decreases |buffers|
  {
    if buffers == [] then [] else Joined(buffers[..|buffers| - 1]) + buffers[|buffers| - 1]
  }

  lemma JoinedSnoc(buffers: seq<Bytes>, last: Bytes)
    ensures Joined(buffers + [last]) == Joined(buffers) + last
  {
    assert (buffers + [last])[..|buffers|] == buffers;
  }

  lemma {:induction false} JoinedConcat(a: seq<Bytes>, b: seq<Bytes>)
    ensures Joined(a + b) == Joined(a) + Joined(b)
    decreases |b|
  {
    if b == [] {
      assert a + b == a;
    } else {
      var n := |b| - 1;
      assert (a + b)[..|a| + n] == a + b[..n];
      JoinedConcat(a, b[..n]);
    }
  }

  lemma JoinedFew(a: Bytes, b: Bytes, c: Bytes)
    ensures Joined([]) == []
    ensures Joined([a]) == a
    ensures Joined([a, b]) == a + b
    ensures Joined([a, b, c]) == a + b + c
  {
    JoinedSnoc([], a);
    JoinedSnoc([a], b);
    JoinedSnoc([a, b], c);
    assert [] + [a] == [a] && [a] + [b] == [a, b] && [a, b] + [c] == [a, b, c];
  }

  /** A Python slice whose end may lie beyond the end of the buffer. */
  function Clip(b: Bytes, from: nat, to: nat): Bytes {
    if from > |b| || to < from then [] else b[from..if to < |b| then to else |b|]
  }

  // ----- padding

  function Zeros(n: nat): Bytes {
    seq(n, _ => 0)
  }

  /** `padded_len`: rounded up to a multiple of 8. */
  function PaddedLen(n: nat): nat {
    8 * ((n + 7) / 8)
  }

  function Padded(b: Bytes): Bytes {
    b + Zeros(PaddedLen(|b|) - |b|)
  }

  /** `_pad_buffer`, looked up by the size modulo 8. */
  function PadBuffer(size: nat): Bytes {
    if size % 8 == 0 then [] else Zeros(8 - size % 8)
  }

  /** The two ways in which the source computes padding give the same bytes, and they
      give the shortest extension to a multiple of 8. */
  lemma PaddingsAgree(b: Bytes)
    ensures Padded(b) == b + PadBuffer(|b|)
    ensures |Padded(b)| % 8 == 0 && |b| <= |Padded(b)| < |b| + 8
    ensures Padded(b) == b <==> |b| % 8 == 0
  {
    assert |b| % 8 == 0 ==> Zeros(0) == [];
  }
}
