/** Base-128 varints, as in the "Base 128 Varints" section of the Protocol Buffers encoding
    specification, and fixed-width big-endian integers. */
module Varint {
  import opened Wrappers

  datatype Error = Eof | UnexpectedEof | Overflow

  const MAX_VARINT_LEN := 10
  const TWO_TO_64: int := 0x1_0000_0000_0000_0000
  const TWO_TO_63: int := 0x8000_0000_0000_0000

  type uint64 = x: int | 0 <= x < TWO_TO_64
  type int64 = x: int | -TWO_TO_63 <= x < TWO_TO_63

  function PutUvarint(value: nat): Bytes {
    if value < 128 then [value] else [value % 128 + 128] + PutUvarint(value / 128)
  }

  /** What reading a varint gives after `i` bytes of it: its remaining value and the bytes behind it. */
  function TakeUvarint(data: Bytes, i: nat): Result<(nat, Bytes), Error>
    requires i <= MAX_VARINT_LEN
    decreases data
  {
    if i == MAX_VARINT_LEN then Err(Overflow)
    else if data == [] then Err(if i > 0 then UnexpectedEof else Eof)
    else if data[0] < 128 then
      if i == MAX_VARINT_LEN - 1 && data[0] > 1 then Err(Overflow) else Ok((data[0], data[1..]))
    else
      match TakeUvarint(data[1..], i + 1)
      case Err(e) => Err(e)
      case Ok((value, rest)) => Ok((data[0] - 128 + 128 * value, rest))
  }

  /** The bound on the value of a varint whose first `i` bytes are gone. */
  function Bound(i: nat): nat
    requires i < MAX_VARINT_LEN
    decreases MAX_VARINT_LEN - i
  {
    if i == MAX_VARINT_LEN - 1 then 2 else 128 * Bound(i + 1)
  }

  lemma BoundIs64Bits()
    ensures Bound(0) == TWO_TO_64
  {
    assert Bound(9) == 2;
    assert Bound(8) == 128 * 2;
    assert Bound(7) == 128 * Bound(8);
    assert Bound(6) == 128 * Bound(7);
    assert Bound(5) == 128 * Bound(6);
    assert Bound(4) == 128 * Bound(5);
    assert Bound(3) == 128 * Bound(4);
    assert Bound(2) == 128 * Bound(3);
    assert Bound(1) == 128 * Bound(2);
  }

  lemma {:induction false} TakeBounded(data: Bytes, i: nat)
    requires i < MAX_VARINT_LEN
    ensures TakeUvarint(data, i).Ok? ==> TakeUvarint(data, i).value.0 < Bound(i)
    decreases MAX_VARINT_LEN - i
  {
    if i < MAX_VARINT_LEN - 1 {
      assert Bound(i) >= 128 by {
        BoundPositive(i + 1);
      }
      if data != [] && data[0] >= 128 {
        TakeBounded(data[1..], i + 1);
      }
    }
  }

  lemma {:induction false} BoundPositive(i: nat)
    requires i < MAX_VARINT_LEN
    ensures Bound(i) >= 1
    decreases MAX_VARINT_LEN - i
  {
    if i < MAX_VARINT_LEN - 1 {
      BoundPositive(i + 1);
    }
  }

  /** Every value that can be read fits 64 bits. */
  lemma TakeFits64(data: Bytes)
    ensures TakeUvarint(data, 0).Ok? ==> TakeUvarint(data, 0).value.0 < TWO_TO_64
  {
    TakeBounded(data, 0);
    BoundIs64Bits();
  }

  lemma {:induction false} TakePut(value: nat, i: nat, rest: Bytes)
    requires i < MAX_VARINT_LEN && value < Bound(i)
    ensures TakeUvarint(PutUvarint(value) + rest, i) == Ok((value, rest))
    decreases MAX_VARINT_LEN - i
  {
    var data := PutUvarint(value) + rest;
    if value < 128 {
      assert data[1..] == rest;
    } else {
      assert i < MAX_VARINT_LEN - 1;
      assert data[1..] == PutUvarint(value / 128) + rest;
      TakePut(value / 128, i + 1, rest);
    }
  }

  /** More bytes behind a complete varint change nothing about it. */
  lemma {:induction false} TakeExtends(data: Bytes, i: nat, more: Bytes)
    requires i <= MAX_VARINT_LEN && TakeUvarint(data, i).Ok?
    ensures TakeUvarint(data + more, i) ==
            Ok((TakeUvarint(data, i).value.0, TakeUvarint(data, i).value.1 + more))
    decreases MAX_VARINT_LEN - i
  {
    assert (data + more)[1..] == data[1..] + more;
    if data[0] >= 128 {
      TakeExtends(data[1..], i + 1, more);
    }
  }

  /** `writeUvarint`: appends the varint to a buffer, seven bits at a time. */
  method WriteUvarint(buffer: Bytes, value: uint64) returns (written: Bytes)
    ensures written == buffer + PutUvarint(value)
  {
    written := buffer;
    var x := value;
    while x >= 128
      invariant 0 <= x
      invariant written + PutUvarint(x) == buffer + PutUvarint(value)
    {
      assert PutUvarint(x) == [x % 128 + 128] + PutUvarint(x / 128);
      written := written + [x % 128 + 128];
      x := x / 128;
    }
    written := written + [x];
  }

  // ---- Big-endian integers ----

  function PutBigEndian(value: nat, width: nat): Bytes {
    if width == 0 then [] else PutBigEndian(value / 256, width - 1) + [value % 256]
  }

  function FromBigEndian(data: Bytes): nat {
    if data == [] then 0 else 256 * FromBigEndian(data[..|data| - 1]) + data[|data| - 1]
  }

  function Pow256(width: nat): nat {
    if width == 0 then 1 else 256 * Pow256(width - 1)
  }

  lemma {:induction false} FromPutBigEndian(value: nat, width: nat)
    requires value < Pow256(width)
    ensures |PutBigEndian(value, width)| == width
    ensures FromBigEndian(PutBigEndian(value, width)) == value
  {
    if width > 0 {
      FromPutBigEndian(value / 256, width - 1);
      var data := PutBigEndian(value, width);
      assert data[..|data| - 1] == PutBigEndian(value / 256, width - 1);
    }
  }

  lemma {:induction false} FromBigEndianBounded(data: Bytes)
    ensures FromBigEndian(data) < Pow256(|data|)
  {
    if data != [] {
      FromBigEndianBounded(data[..|data| - 1]);
    }
  }

  lemma EightBytes()
    ensures Pow256(8) == TWO_TO_64
  {
    assert Pow256(2) == 65536;
    assert Pow256(4) == 256 * (256 * Pow256(2));
    assert Pow256(6) == 256 * (256 * Pow256(4));
    assert Pow256(8) == 256 * (256 * Pow256(6));
  }

  /** The two's complement reading of a 64-bit pattern, and its inverse. */
  function ToUnsigned(x: int64): uint64 {
    if x < 0 then x + TWO_TO_64 else x
  }

  function ToSigned(x: uint64): int64 {
    if x >= TWO_TO_63 then x - TWO_TO_64 else x
  }

  function PutInt64(x: int64): Bytes {
    PutBigEndian(ToUnsigned(x), 8)
  }

  function FromInt64(data: Bytes): int64
    requires |data| == 8
  {
    EightBytes();
    FromBigEndianBounded(data);
    ToSigned(FromBigEndian(data))
  }

  lemma FromPutInt64(x: int64)
    ensures |PutInt64(x)| == 8 && FromInt64(PutInt64(x)) == x
  {
    EightBytes();
    FromPutBigEndian(ToUnsigned(x), 8);
  }
}

/** The cached rule set record and its binary form. */
module RuleSetCodec {
  import opened Wrappers
  import opened Varint

  /** A point in time: `Unix()` is its whole seconds. */
  datatype Time = Time(seconds: int64, nanos: nat)

  datatype Record = Record(content: Bytes, seconds: int64, etag: Bytes)

  /** What Go can hold: lengths are 64-bit. */
  predicate Encodable(r: Record) {
    |r.content| < TWO_TO_64 && |r.etag| < TWO_TO_64
  }

  function Encode(r: Record): Bytes {
    [1] + PutUvarint(|r.content|) + r.content + PutInt64(r.seconds) + PutUvarint(|r.etag|) + r.etag
  }

  /** `io.ReadFull` of `n` bytes. */
  function TakeFull(data: Bytes, n: nat): Result<(Bytes, Bytes), Error> {
    if n <= |data| then Ok((data[..n], data[n..]))
    else Err(if data == [] then Eof else UnexpectedEof)
  }

  /** A fresh slice. */
  function Zeros(n: nat): Bytes {
    seq(n, _ => 0)
  }

  /** A length-prefixed byte string. */
  function TakeBlock(data: Bytes): Result<(Bytes, Bytes), Error> {
    match TakeUvarint(data, 0)
    case Err(e) => Err(e)
    case Ok((n, rest)) => TakeFull(rest, n)
  }

  function TakeInt64(data: Bytes): Result<(int64, Bytes), Error> {
    match TakeFull(data, 8)
    case Err(e) => Err(e)
    case Ok((bytes, rest)) => Ok((FromInt64(bytes), rest))
  }

  /** Decodes a record and tells what is left. The version byte is read and not looked at. */
  function Decode(data: Bytes): Result<(Record, Bytes), Error> {
    if data == [] then Err(Eof)
    else
      match TakeBlock(data[1..])
      case Err(e) => Err(e)
      case Ok((content, afterContent)) =>
        match TakeInt64(afterContent)
        case Err(e) => Err(e)
        case Ok((seconds, afterTime)) =>
          match TakeBlock(afterTime)
          case Err(e) => Err(e)
          case Ok((etag, rest)) => Ok((Record(content, seconds, etag), rest))
  }

  lemma TakePutBlock(block: Bytes, rest: Bytes)
    requires |block| < TWO_TO_64
    ensures TakeBlock(PutUvarint(|block|) + block + rest) == Ok((block, rest))
  {
    BoundIs64Bits();
    TakePut(|block|, 0, block + rest);
    assert PutUvarint(|block|) + (block + rest) == PutUvarint(|block|) + block + rest;
    assert (block + rest)[..|block|] == block && (block + rest)[|block|..] == rest;
  }

  /** Decoding an encoding, whatever bytes follow it, gives the record back and stops at its end. */
  lemma {:induction false} DecodeEncode(r: Record, trailing: Bytes)
    requires Encodable(r)
    ensures Decode(Encode(r) + trailing) == Ok((r, trailing))
  {
    var tail := PutUvarint(|r.etag|) + r.etag + trailing;
    var body := PutInt64(r.seconds) + tail;
    var data := Encode(r) + trailing;
    assert data[1..] == PutUvarint(|r.content|) + r.content + body;
    TakePutBlock(r.content, body);
    FromPutInt64(r.seconds);
    assert body[..8] == PutInt64(r.seconds) && body[8..] == tail;
    TakePutBlock(r.etag, trailing);
  }

  lemma FullExtends(data: Bytes, n: nat, more: Bytes)
    requires n <= |data|
    ensures TakeFull(data + more, n) == Ok((data[..n], data[n..] + more))
  {
    assert (data + more)[..n] == data[..n] && (data + more)[n..] == data[n..] + more;
  }

  lemma BlockExtends(data: Bytes, more: Bytes)
    requires TakeBlock(data).Ok?
    ensures TakeBlock(data + more) == Ok((TakeBlock(data).value.0, TakeBlock(data).value.1 + more))
  {
    TakeExtends(data, 0, more);
    var n, rest := TakeUvarint(data, 0).value.0, TakeUvarint(data, 0).value.1;
    FullExtends(rest, n, more);
  }

  lemma Int64Extends(data: Bytes, more: Bytes)
    requires TakeInt64(data).Ok?
    ensures TakeInt64(data + more) == Ok((TakeInt64(data).value.0, TakeInt64(data).value.1 + more))
  {
    FullExtends(data, 8, more);
  }

  /** A decoder that succeeds reads the same from any longer input. */
  lemma {:induction false} DecodeExtends(data: Bytes, more: Bytes)
    requires Decode(data).Ok?
    ensures Decode(data + more) == Ok((Decode(data).value.0, Decode(data).value.1 + more))
  {
    assert (data + more)[1..] == data[1..] + more;
    BlockExtends(data[1..], more);
    var afterContent := TakeBlock(data[1..]).value.1;
    Int64Extends(afterContent, more);
    BlockExtends(TakeInt64(afterContent).value.1, more);
  }

  lemma CodePrefixFails(code: Bytes, k: nat)
    requires Decode(code).Ok? && Decode(code).value.1 == [] && k < |code|
    ensures Decode(code[..k]).Err?
  {
    assert code[..k] + code[k..] == code;
    if Decode(code[..k]).Ok? {
      DecodeExtends(code[..k], code[k..]);
    }
  }

  /** No proper prefix of an encoding decodes. */
  lemma {:induction false} ProperPrefixFails(r: Record, k: nat)
    requires Encodable(r) && k < |Encode(r)|
    ensures Decode(Encode(r)[..k]).Err?
  {
    DecodeEncode(r, []);
    assert Encode(r) + [] == Encode(r);
    CodePrefixFails(Encode(r), k);
  }

  /** Different records have different encodings, and neither is a prefix of the other. */
  lemma {:induction false} EncodingsArePrefixFree(r: Record, s: Record)
    requires Encodable(r) && Encodable(s) && Encode(r) <= Encode(s)
    ensures r == s
  {
    DecodeEncode(r, []);
    DecodeEncode(s, []);
    assert Encode(r) + [] == Encode(r) && Encode(s) + [] == Encode(s);
    assert Encode(s)[..|Encode(r)|] == Encode(r);
    if Encode(r) != Encode(s) {
      CodePrefixFails(Encode(s), |Encode(r)|);
    }
  }

  /** Whatever decodes can be encoded again. */
  lemma DecodedIsEncodable(data: Bytes)
    ensures Decode(data).Ok? ==> Encodable(Decode(data).value.0)
  {
    if Decode(data).Ok? {
      TakeFits64(data[1..]);
      var afterContent := TakeBlock(data[1..]).value.1;
      var afterTime := TakeInt64(afterContent).value.1;
      TakeFits64(afterTime);
    }
  }

  // ---- The reader and the record as the program has them ----

  /** A `bytes.Reader`: the data and how much of it was read. */
  class Reader {
    const data: Bytes
    var pos: nat

    ghost predicate Valid()
      reads this
    {
      pos <= |data|
    }

    ghost function Rest(): Bytes
      reads this
      requires Valid()
    {
      data[pos..]
    }

    constructor (data: Bytes)
      ensures Valid() && Rest() == data
    {
      this.data := data;
      this.pos := 0;
    }

    /** `binary.ReadUvarint` */
    method ReadUvarint() returns (r: Result<uint64, Error>)
      requires Valid()
      modifies this
      ensures Valid()
      ensures match TakeUvarint(old(Rest()), 0)
              case Ok((value, rest)) => r == Ok(value) && Rest() == rest
              case Err(e) => r == Err(e)
    {
      ghost var all := Rest();
      var x: nat, weight: nat := 0, 1;
      TakeFits64(all);
      for i := 0 to MAX_VARINT_LEN
        invariant Valid()
        invariant TakeUvarint(all, 0) == Shift(x, weight, TakeUvarint(Rest(), i))
      {
        if pos == |data| {
          return Err(if i > 0 then UnexpectedEof else Eof);
        }
        var b := data[pos];
        ghost var rest := Rest();
        pos := pos + 1;
        assert rest[0] == b && rest[1..] == Rest();
        ByteStep(x, weight, rest, i);
        if b < 128 {
          if i == MAX_VARINT_LEN - 1 && b > 1 {
            return Err(Overflow);
          }
          return Ok(x + weight * b);
        }
        x := x + weight * (b - 128);
        weight := weight * 128;
      }
      return Err(Overflow);
    }

    /** `io.ReadFull` into a fresh slice of `n` bytes, which holds what there was if that is too little. */
    method ReadFull(n: nat) returns (buffer: Bytes, failure: Option<Error>)
      requires Valid()
      modifies this
      ensures Valid()
      ensures match TakeFull(old(Rest()), n)
              case Ok((bytes, rest)) => failure == None && buffer == bytes && Rest() == rest
              case Err(e) => failure == Some(e) && buffer == old(Rest()) + Zeros(n - |old(Rest())|)
    {
      if n <= |data| - pos {
        buffer, failure := data[pos..pos + n], None;
        assert Rest()[..n] == data[pos..pos + n];
        pos := pos + n;
      } else {
        buffer := data[pos..] + Zeros(n - (|data| - pos));
        failure := Some(if pos == |data| then Eof else UnexpectedEof);
        pos := |data|;
      }
    }
  }

  /** The value of a varint some bytes of which were accumulated in `x`. */
  ghost function Shift(x: nat, weight: nat, r: Result<(nat, Bytes), Error>): Result<(nat, Bytes), Error> {
    match r
    case Err(e) => Err(e)
    case Ok((value, rest)) => Ok((x + weight * value, rest))
  }

  /** One byte of a varint: it ends the value, or the accumulator moves on by seven bits. */
  lemma ByteStep(x: nat, weight: nat, data: Bytes, i: nat)
    requires data != [] && i < MAX_VARINT_LEN
    ensures Shift(x, weight, TakeUvarint(data, i)) ==
            if data[0] >= 128 then
              Shift(x + weight * (data[0] - 128), weight * 128, TakeUvarint(data[1..], i + 1))
            else if i == MAX_VARINT_LEN - 1 && data[0] > 1 then Err(Overflow)
            else Ok((x + weight * data[0], data[1..]))
  {
    var next := TakeUvarint(data[1..], i + 1);
    if data[0] >= 128 && next.Ok? {
      var low: nat, value := data[0] - 128, next.value.0;
      assert weight * (low + 128 * value) == weight * low + weight * 128 * value;
    }
  }

  /** The fields of the record as the program holds them. */
  datatype Fields = Fields(content: Bytes, lastUpdated: Time, lastEtag: Bytes)

  /** The record after an input that does not decode: with the content if its length was readable (padded
      with zeros if there is too little of it), with the timestamp if that was. */
  function AfterFailure(data: Bytes, before: Fields): Fields {
    if data == [] then before
    else
      match TakeUvarint(data[1..], 0)
      case Err(_) => before
      case Ok((n, rest)) =>
        if n > |rest| then before.(content := rest + Zeros(n - |rest|))
        else
          match TakeInt64(rest[n..])
          case Err(_) => before.(content := rest[..n])
          case Ok((seconds, _)) => before.(content := rest[..n], lastUpdated := Time(seconds, 0))
  }

  datatype Failure = Failed(error: Error) | Panic

  /** One of the two lengths is readable and too large for a slice. */
  predicate Panics(data: Bytes, limit: nat) {
    data != []
    && match TakeUvarint(data[1..], 0)
       case Err(_) => false
       case Ok((n, rest)) =>
         n > limit
         || (n <= |rest|
             && match TakeInt64(rest[n..])
                case Err(_) => false
                case Ok((_, afterTime)) =>
                  match TakeUvarint(afterTime, 0)
                  case Err(_) => false
                  case Ok((m, _)) => m > limit)
  }

  lemma {:induction false} TakeShortens(data: Bytes, i: nat)
    requires i <= MAX_VARINT_LEN && TakeUvarint(data, i).Ok?
    ensures |TakeUvarint(data, i).value.1| < |data|
    decreases MAX_VARINT_LEN - i
  {
    if data[0] >= 128 {
      TakeShortens(data[1..], i + 1);
    }
  }

  /** An input that decodes does not panic: its lengths are within the input, which is in memory. */
  lemma DecodableDoesNotPanic(data: Bytes, limit: nat)
    requires Decode(data).Ok? && |data| <= limit
    ensures !Panics(data, limit)
  {
    TakeShortens(data[1..], 0);
    var afterContent := TakeBlock(data[1..]).value.1;
    var afterTime := TakeInt64(afterContent).value.1;
    TakeShortens(afterTime, 0);
  }

  /** A version byte and the largest length are enough for a panic. */
  lemma HugeLengthPanics(limit: nat)
    requires limit < TWO_TO_64 - 1
    ensures Panics([1] + PutUvarint(TWO_TO_64 - 1), limit)
  {
    var data := [1] + PutUvarint(TWO_TO_64 - 1);
    BoundIs64Bits();
    TakePut(TWO_TO_64 - 1, 0, []);
    assert data[1..] == PutUvarint(TWO_TO_64 - 1) + [];
  }

  /** `savedRuleSetBinary` */
  class SavedRuleSet {
    var content: Bytes
    var lastUpdated: Time
    var lastEtag: Bytes

    constructor (content: Bytes, lastUpdated: Time, lastEtag: Bytes)
      ensures this.content == content && this.lastUpdated == lastUpdated && this.lastEtag == lastEtag
    {
      this.content, this.lastUpdated, this.lastEtag := content, lastUpdated, lastEtag;
    }

    /** The record without the fraction of a second, which the format does not hold. */
    function Value(): Record
      reads this
    {
      Record(content, lastUpdated.seconds, lastEtag)
    }

    method MarshalBinary() returns (buffer: Bytes)
      requires Encodable(Value())
      ensures buffer == Encode(Value())
    {
      buffer := [1];
      buffer := WriteUvarint(buffer, |content|);
      buffer := buffer + content;
      buffer := buffer + PutInt64(lastUpdated.seconds);
      buffer := WriteUvarint(buffer, |lastEtag|);
      buffer := buffer + lastEtag;
    }

    function State(): Fields
      reads this
    {
      Fields(content, lastUpdated, lastEtag)
    }

    /** Reads the fields one after the other; a failure keeps what was assigned by then. A slice longer than
        `limit` cannot be made: that panics. */
    method UnmarshalBinary(data: Bytes, limit: nat) returns (failure: Option<Failure>)
      modifies this
      ensures failure == Some(Panic) <==> Panics(data, limit)
      ensures !Panics(data, limit) ==>
                match Decode(data)
                case Ok((r, _)) => failure == None && State() == Fields(r.content, Time(r.seconds, 0), r.etag)
                case Err(e) => failure == Some(Failed(e)) && State() == AfterFailure(data, old(State()))
    {
      var reader := new Reader(data);
      var version, short := reader.ReadFull(1);
      if short.Some? {
        return Some(Failed(short.value));
      }
      assert reader.Rest() == data[1..];
      var contentLength := reader.ReadUvarint();
      if contentLength.Err? {
        return Some(Failed(contentLength.error));
      }
      if contentLength.value > limit {
        return Some(Panic);
      }
      content, short := reader.ReadFull(contentLength.value);
      if short.Some? {
        return Some(Failed(short.value));
      }
      var timestamp;
      timestamp, short := reader.ReadFull(8);
      if short.Some? {
        return Some(Failed(short.value));
      }
      lastUpdated := Time(FromInt64(timestamp), 0);
      var etagLength := reader.ReadUvarint();
      if etagLength.Err? {
        return Some(Failed(etagLength.error));
      }
      if etagLength.value > limit {
        return Some(Panic);
      }
      var etag;
      etag, short := reader.ReadFull(etagLength.value);
      if short.Some? {
        return Some(Failed(short.value));
      }
      lastEtag := etag;
      return None;
    }
  }

  // ---- The cache ----

  /** The rule set bucket; `None` while it does not exist. */
  type Bucket = Option<map<string, Bytes>>

  /** `loadRuleSetCache`: an empty or undecodable entry counts as missing. */
  function Load(bucket: Bucket, tag: string): Option<Record> {
    if bucket.None? || tag !in bucket.value || bucket.value[tag] == [] then None
    else
      match Decode(bucket.value[tag])
      case Ok((r, _)) => Some(r)
      case Err(_) => None
  }

  /** The bucket has an entry for the tag that is not empty. */
  predicate HasEntry(bucket: Bucket, tag: string) {
    bucket.Some? && tag in bucket.value && bucket.value[tag] != []
  }

  datatype CacheError = CacheDisabled | BadEntry | Panicked | Database

  lemma StoredLoads(entries: map<string, Bytes>, tag: string, r: Record)
    requires Encodable(r)
    ensures Load(Some(entries[tag := Encode(r)]), tag) == Some(r)
    ensures forall other :: other != tag ==>
      Load(Some(entries[tag := Encode(r)]), other) == Load(Some(entries), other)
  {
    DecodeEncode(r, []);
    assert Encode(r) + [] == Encode(r);
    assert Encode(r) != [];
  }

  class RuleSetCache {
    var bucket: Bucket

    constructor ()
      ensures bucket == None
    {
      bucket := None;
    }

    /** `saveRemoteCache`; the database may refuse to open or to commit. */
    method Save(tag: string, content: Bytes, etag: Bytes, updated: Time, openFails: bool, commitFails: bool)
      returns (failure: Option<CacheError>)
      requires Encodable(Record(content, updated.seconds, etag))
      modifies this
      ensures failure == if openFails then Some(CacheDisabled) else if commitFails then Some(Database) else None
      ensures failure.Some? ==> bucket == old(bucket)
      ensures failure.None? ==> Load(bucket, tag) == Some(Record(content, updated.seconds, etag))
      ensures forall other :: other != tag ==> Load(bucket, other) == Load(old(bucket), other)
    {
      if openFails {
        return Some(CacheDisabled);
      }
      var saved := new SavedRuleSet(content, updated, etag);
      var payload := saved.MarshalBinary();
      if commitFails {
        return Some(Database);
      }
      StoredLoads(if bucket.Some? then bucket.value else map[], tag, saved.Value());
      bucket := Some((if bucket.Some? then bucket.value else map[])[tag := payload]);
      return None;
    }

    /** `touchRemoteCache`: a missing or empty entry is left alone, an undecodable one is an error. */
    method Touch(tag: string, updated: Time, limit: nat, openFails: bool, commitFails: bool)
      returns (failure: Option<CacheError>)
      modifies this
      ensures failure == if openFails then Some(CacheDisabled)
                         else if HasEntry(old(bucket), tag) && Panics(old(bucket).value[tag], limit) then Some(Panicked)
                         else if HasEntry(old(bucket), tag) && Decode(old(bucket).value[tag]).Err? then Some(BadEntry)
                         else if commitFails then Some(Database) else None
      ensures failure.Some? || Load(old(bucket), tag).None? ==> bucket == old(bucket)
      ensures failure.None? && Load(old(bucket), tag).Some? ==>
                Load(bucket, tag) == Some(Load(old(bucket), tag).value.(seconds := updated.seconds))
      ensures forall other :: other != tag ==> Load(bucket, other) == Load(old(bucket), other)
    {
      if openFails {
        return Some(CacheDisabled);
      }
      if bucket.None? || tag !in bucket.value || bucket.value[tag] == [] {
        return if commitFails then Some(Database) else None;
      }
      var data := bucket.value[tag];
      var saved := new SavedRuleSet([], Time(0, 0), []);
      var failed := saved.UnmarshalBinary(data, limit);
      if failed.Some? {
        return Some(if failed.value.Panic? then Panicked else BadEntry);
      }
      saved.lastUpdated := updated;
      DecodedIsEncodable(data);
      var payload := saved.MarshalBinary();
      if commitFails {
        return Some(Database);
      }
      StoredLoads(bucket.value, tag, saved.Value());
      bucket := Some(bucket.value[tag := payload]);
      return None;
    }
  }
}
