/** The bytes of a cached rule set, one by one. */
module RuleSetBytes {
  import opened Wrappers
  import opened Varint
  import opened RuleSetCodec

  // ---- Varints ----

  /** The number that base-128 digits denote, the lowest first. */
  function Weighted(digits: Bytes): nat {
    if digits == [] then 0 else digits[0] % 128 + 128 * Weighted(digits[1..])
  }

  /** A varint of the value: all bytes but the last have the top bit, the lower seven bits are the digits, and no zero
      digit stands at the end of a longer one. */
  ghost predicate IsVarint(b: Bytes, value: nat) {
    && b != [] && b[|b| - 1] < 128 && (|b| > 1 ==> b[|b| - 1] != 0)
    && (forall i | 0 <= i < |b| - 1 :: b[i] >= 128)
    && Weighted(b) == value
  }

  lemma {:induction false} VarintShape(value: nat)
    ensures IsVarint(PutUvarint(value), value)
  {
    var b := PutUvarint(value);
    if value >= 128 {
      VarintShape(value / 128);
      assert b[1..] == PutUvarint(value / 128);
    } else {
      assert b[1..] == [];
    }
  }

  /** There is just one such varint. */
  lemma {:induction false} VarintUnique(a: Bytes, b: Bytes, value: nat)
    requires IsVarint(a, value) && IsVarint(b, value)
    ensures a == b
  {
    TailShape(a, value);
    TailShape(b, value);
    if value >= 128 {
      VarintUnique(a[1..], b[1..], value / 128);
      assert a == [a[0]] + a[1..] && b == [b[0]] + b[1..];
    }
  }

  lemma TailShape(b: Bytes, value: nat)
    requires IsVarint(b, value)
    ensures value < 128 ==> b == [value]
    ensures value >= 128 ==> b[0] == value % 128 + 128 && IsVarint(b[1..], value / 128)
  {
    assert Weighted(b) == b[0] % 128 + 128 * Weighted(b[1..]);
    if |b| == 1 {
      assert b[1..] == [];
    } else {
      LastDigit(b[1..]);
    }
  }

  lemma {:induction false} LastDigit(b: Bytes)
    requires b != [] && b[|b| - 1] % 128 != 0
    ensures Weighted(b) > 0
  {
    if |b| > 1 {
      LastDigit(b[1..]);
    }
  }

  /** The example of the encoding guide, and the limits of one and two bytes. */
  lemma VarintExamples()
    ensures PutUvarint(150) == [0x96, 0x01] && PutUvarint(300) == [0xAC, 0x02]
    ensures PutUvarint(127) == [0x7F] && PutUvarint(128) == [0x80, 0x01] && PutUvarint(16383) == [0xFF, 0x7F]
  {
    assert PutUvarint(150 / 128) == [1] && PutUvarint(300 / 128) == [2] && PutUvarint(128 / 128) == [1];
    assert PutUvarint(16383 / 128) == [127];
  }

  // ---- Seconds ----

  function Plain(b: byte): int {
    b
  }

  function Signed(b: byte): int {
    if b < 128 then Plain(b) else Plain(b) - 256
  }

  /** Eight bytes of a signed number, the highest first; the top bit of the first is the sign. */
  predicate IsInt64(b: Bytes, x: int) {
    && |b| == 8
    && x == Signed(b[0]) * 0x100_0000_0000_0000 + Plain(b[1]) * 0x1_0000_0000_0000 + Plain(b[2]) * 0x100_0000_0000
            + Plain(b[3]) * 0x1_0000_0000 + Plain(b[4]) * 0x100_0000 + Plain(b[5]) * 0x1_0000 + Plain(b[6]) * 0x100
            + Plain(b[7])
  }

  lemma Horner(b: Bytes)
    requires b != []
    ensures FromBigEndian(b) == 256 * FromBigEndian(b[..|b| - 1]) + b[|b| - 1]
  {}

  lemma FourBytes(b: Bytes)
    requires |b| == 4
    ensures FromBigEndian(b) == Plain(b[0]) * 0x100_0000 + Plain(b[1]) * 0x1_0000 + Plain(b[2]) * 0x100
                                + Plain(b[3])
  {
    assert b[..3][..2] == b[..2] && b[..2][..1] == b[..1] && b[..1][..0] == [];
    Horner(b);
    Horner(b[..3]);
    Horner(b[..2]);
    Horner(b[..1]);
  }

  lemma EightAtOnce(b: Bytes)
    requires |b| == 8
    ensures FromBigEndian(b) ==
            Plain(b[0]) * 0x100_0000_0000_0000 + Plain(b[1]) * 0x1_0000_0000_0000 + Plain(b[2]) * 0x100_0000_0000
            + Plain(b[3]) * 0x1_0000_0000 + Plain(b[4]) * 0x100_0000 + Plain(b[5]) * 0x1_0000 + Plain(b[6]) * 0x100
            + Plain(b[7])
  {
    FourBytes(b[..4]);
    assert b[..7][..6] == b[..6] && b[..6][..5] == b[..5] && b[..5][..4] == b[..4];
    Horner(b);
    Horner(b[..7]);
    Horner(b[..6]);
    Horner(b[..5]);
  }

  /** Seconds are read from eight bytes, the highest first. */
  lemma ReadSeconds(b: Bytes)
    requires |b| == 8
    ensures IsInt64(b, FromInt64(b))
  {
    EightAtOnce(b);
  }

  /** And written so. */
  lemma WrittenSeconds(x: int64)
    ensures IsInt64(PutInt64(x), x)
  {
    FromPutInt64(x);
    ReadSeconds(PutInt64(x));
  }

  lemma SameDigit(p: int, a: byte, q: int, b: byte)
    requires 256 * p + Plain(a) == 256 * q + Plain(b)
    ensures p == q && a == b
  {}

  /** The first `n` bytes as one signed number. */
  function Leading(b: Bytes, n: nat): int
    requires 0 < n <= |b|
  {
    if n == 1 then Signed(b[0]) else 256 * Leading(b, n - 1) + Plain(b[n - 1])
  }

  lemma LeadingIs(b: Bytes, x: int)
    requires IsInt64(b, x)
    ensures Leading(b, 8) == x
  {
    assert Leading(b, 1) == Signed(b[0]);
    assert Leading(b, 2) == 256 * Leading(b, 1) + Plain(b[1]);
    assert Leading(b, 3) == 256 * Leading(b, 2) + Plain(b[2]);
    assert Leading(b, 4) == 256 * Leading(b, 3) + Plain(b[3]);
    assert Leading(b, 5) == 256 * Leading(b, 4) + Plain(b[4]);
    assert Leading(b, 6) == 256 * Leading(b, 5) + Plain(b[5]);
    assert Leading(b, 7) == 256 * Leading(b, 6) + Plain(b[6]);
  }

  lemma {:induction false} LeadingUnique(a: Bytes, b: Bytes, n: nat)
    requires 0 < n <= |a| && n <= |b| && Leading(a, n) == Leading(b, n)
    ensures a[..n] == b[..n]
  {
    if n > 1 {
      SameDigit(Leading(a, n - 1), a[n - 1], Leading(b, n - 1), b[n - 1]);
      LeadingUnique(a, b, n - 1);
      assert a[..n] == a[..n - 1] + [a[n - 1]] && b[..n] == b[..n - 1] + [b[n - 1]];
    }
  }

  /** No other eight bytes denote the same number. */
  lemma Int64Unique(a: Bytes, b: Bytes, x: int)
    requires IsInt64(a, x) && IsInt64(b, x)
    ensures a == b
  {
    LeadingIs(a, x);
    LeadingIs(b, x);
    LeadingUnique(a, b, 8);
    assert a[..8] == a && b[..8] == b;
  }

  // ---- The record ----

  /** A record is written as the version 1, the length of the content as a varint, the content, the seconds in eight
      bytes, the length of the etag as a varint, and the etag. No other bytes have this form. */
  lemma {:induction false} LayoutIff(r: Record, data: Bytes)
    ensures data == Encode(r) <==>
            exists contentLength, seconds, etagLength ::
              IsVarint(contentLength, |r.content|) && IsInt64(seconds, r.seconds) && IsVarint(etagLength, |r.etag|)
              && data == [1] + contentLength + r.content + seconds + etagLength + r.etag
  {
    VarintShape(|r.content|);
    VarintShape(|r.etag|);
    WrittenSeconds(r.seconds);
    if contentLength, seconds, etagLength :|
        IsVarint(contentLength, |r.content|) && IsInt64(seconds, r.seconds) && IsVarint(etagLength, |r.etag|)
        && data == [1] + contentLength + r.content + seconds + etagLength + r.etag {
      VarintUnique(contentLength, PutUvarint(|r.content|), |r.content|);
      VarintUnique(etagLength, PutUvarint(|r.etag|), |r.etag|);
      Int64Unique(seconds, PutInt64(r.seconds), r.seconds);
    }
  }

  /** A small record, byte by byte. */
  lemma SmallRecord()
    ensures Encode(Record([0xAA, 0xBB], 258, [0x22])) ==
            [1, 2, 0xAA, 0xBB, 0, 0, 0, 0, 0, 0, 1, 2, 1, 0x22]
  {
    var seconds: Bytes := [0, 0, 0, 0, 0, 0, 1, 2];
    WrittenSeconds(258);
    Int64Unique(seconds, PutInt64(258), 258);
    var content: Bytes, etag: Bytes := [0xAA, 0xBB], [0x22];
    assert Encode(Record(content, 258, etag)) == [1] + [2] + content + seconds + [1] + etag;
  }
}
