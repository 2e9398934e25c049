// The on-disk record of a downloaded resource (adapter/experimental.go): a version byte, three
// length-prefixed byte strings and a time in seconds.
module SavedBinary {
  import opened Base

  type Bytes = seq<Octet>

  const UINT64 := 0x1_0000_0000_0000_0000
  const INT64 := 0x8000_0000_0000_0000

  /** Seconds and nanoseconds since 1970. */
  datatype Time = Time(seconds: int, nanos: nat)

  datatype Record = Record(content: Bytes, lastUpdated: Time, lastEtag: Bytes, urlHash: Bytes)
  {
    /** Lengths are Go ints and seconds a Go int64. */
    predicate Fits() {
      |content| < UINT64 && |lastEtag| < UINT64 && |urlHash| < UINT64 && -INT64 <= lastUpdated.seconds < INT64
    }

    function WholeSeconds(): Record { this.(lastUpdated := Time(lastUpdated.seconds, 0)) }
  }

  datatype Error = Truncated | Overflow | BadLength(length: nat)
  datatype Result<+T> = Ok(value: T) | Err(error: Error)

  // ---- variable-length integers

  function PutUvarint(x: nat): Bytes {
    if x < 128 then [x] else [x % 128 + 128] + PutUvarint(x / 128)
  }

  /** binary.ReadUvarint after i bytes: the value of what follows, and the rest. */
  function Uvarint(s: Bytes, i: nat): Result<(nat, Bytes)>
    requires i <= 10
    decreases 10 - i
  {
    if i == 10 then Err(Overflow) else
    if s == [] then Err(Truncated) else
    if s[0] < 128 then (if i == 9 && s[0] > 1 then Err(Overflow) else Ok((s[0], s[1..]))) else
    match Uvarint(s[1..], i + 1)
    case Err(e) => Err(e)
    case Ok((v, rest)) => Ok((s[0] - 128 + 128 * v, rest))
  }

  /** What is left of 64 bits after i groups of seven. */
  function Limit(i: nat): nat
    requires i <= 9
    decreases 9 - i
  {
    if i == 9 then 2 else 128 * Limit(i + 1)
  }

  lemma LimitIs()
    ensures Limit(0) == UINT64
  {
    assert Limit(6) == 128 * 128 * 128 * 2;
    assert Limit(3) == 128 * 128 * 128 * Limit(6);
  }

  /** A value that fits 64 bits is read back, whatever follows it. */
  lemma {:induction false} UvarintRoundTrip(x: nat, rest: Bytes, i: nat)
    requires i <= 9 && x < Limit(i)
    ensures Uvarint(PutUvarint(x) + rest, i) == Ok((x, rest))
    decreases x
  {
    var s := PutUvarint(x) + rest;
    if x < 128 {
      assert s[1..] == rest;
    } else {
      assert i < 9;
      assert s[1..] == PutUvarint(x / 128) + rest;
      UvarintRoundTrip(x / 128, rest, i + 1);
    }
  }

  /** Every value read fits 64 bits and at least one byte was used for it. */
  lemma {:induction false} UvarintFits(s: Bytes, i: nat)
    requires i <= 9
    ensures Uvarint(s, i).Ok? ==> Uvarint(s, i).value.0 < Limit(i) && |Uvarint(s, i).value.1| < |s|
    decreases 9 - i
  {
    if i < 9 && s != [] && s[0] >= 128 { UvarintFits(s[1..], i + 1); }
    if i < 9 { assert Limit(i) >= 128 by { LimitLarge(i); } }
  }

  lemma {:induction false} LimitLarge(i: nat)
    requires i < 9
    ensures Limit(i) >= 256
    decreases 9 - i
  {
    if i < 8 { LimitLarge(i + 1); }
  }

  // ---- fixed-length integers

  function BigEndian(n: nat, width: nat): (s: Bytes)
    ensures |s| == width
  {
    if width == 0 then [] else BigEndian(n / 256, width - 1) + [n % 256]
  }

  function FromBigEndian(s: Bytes): nat {
    if s == [] then 0 else 256 * FromBigEndian(s[..|s| - 1]) + s[|s| - 1]
  }

  function Range(width: nat): (r: nat)
    ensures r > 0
  {
    if width == 0 then 1 else 256 * Range(width - 1)
  }

  lemma RangeIs()
    ensures Range(8) == UINT64
  {
    assert Range(4) == 256 * 256 * 256 * 256;
    assert Range(8) == 256 * 256 * 256 * 256 * Range(4);
  }

  lemma {:induction false} BigEndianRoundTrip(n: nat, width: nat)
    requires n < Range(width)
    ensures FromBigEndian(BigEndian(n, width)) == n
  {
    if width > 0 {
      BigEndianRoundTrip(n / 256, width - 1);
      var s := BigEndian(n, width);
      assert s[..|s| - 1] == BigEndian(n / 256, width - 1);
    }
  }

  function PutInt64(x: int): Bytes
    requires -INT64 <= x < INT64
  {
    BigEndian(if x < 0 then x + UINT64 else x, 8)
  }

  function Int64(s: Bytes): int
    requires |s| == 8
  {
    var n := FromBigEndian(s);
    if n < INT64 then n else n - UINT64
  }

  lemma Int64RoundTrip(x: int)
    requires -INT64 <= x < INT64
    ensures Int64(PutInt64(x)) == x
  {
    RangeIs();
    BigEndianRoundTrip(if x < 0 then x + UINT64 else x, 8);
  }

  // ---- the record

  function PutBytes(b: Bytes): Bytes { PutUvarint(|b|) + b }

  function Encode(r: Record): Bytes
    requires r.Fits()
  {
    [2] + PutBytes(r.content) + PutInt64(r.lastUpdated.seconds) + PutBytes(r.lastEtag) + PutBytes(r.urlHash)
  }

  /** A length and that many bytes; a length beyond the input is refused before anything is taken. */
  function GetBytes(s: Bytes): Result<(Bytes, Bytes)> {
    match Uvarint(s, 0)
    case Err(e) => Err(e)
    case Ok((n, rest)) => if n > |rest| then Err(BadLength(n)) else Ok((rest[..n], rest[n..]))
  }

  function GetSeconds(s: Bytes): Result<(Time, Bytes)> {
    if |s| < 8 then Err(Truncated) else Ok((Time(Int64(s[..8]), 0), s[8..]))
  }

  function DecodeHash(r: Record, s: Bytes): (Record, Option<Error>) {
    match GetBytes(s)
    case Err(e) => (r, Some(e))
    case Ok((hash, _)) => (r.(urlHash := hash), None)
  }

  function DecodeEtag(r: Record, s: Bytes, version: Octet): (Record, Option<Error>) {
    match GetBytes(s)
    case Err(e) => (r, Some(e))
    case Ok((etag, rest)) =>
      if version < 2 then (r.(lastEtag := etag), None) else DecodeHash(r.(lastEtag := etag), rest)
  }

  function DecodeTime(r: Record, s: Bytes, version: Octet): (Record, Option<Error>) {
    match GetSeconds(s)
    case Err(e) => (r, Some(e))
    case Ok((time, rest)) => DecodeEtag(r.(lastUpdated := time), rest, version)
  }

  /** UnmarshalBinary into a record that already holds something: the fields read before an error stay. */
  function Decode(r: Record, data: Bytes): (Record, Option<Error>) {
    if data == [] then (r, Some(Truncated)) else
    match GetBytes(data[1..])
    case Err(e) => (r, Some(e))
    case Ok((content, rest)) => DecodeTime(r.(content := content), rest, data[0])
  }

  lemma GetPut(b: Bytes, rest: Bytes)
    requires |b| < UINT64
    ensures GetBytes(PutBytes(b) + rest) == Ok((b, rest))
  {
    LimitIs();
    UvarintRoundTrip(|b|, b + rest, 0);
    assert PutBytes(b) + rest == PutUvarint(|b|) + (b + rest);
    assert (b + rest)[..|b|] == b && (b + rest)[|b|..] == rest;
  }

  lemma GetPutSeconds(seconds: int, rest: Bytes)
    requires -INT64 <= seconds < INT64
    ensures GetSeconds(PutInt64(seconds) + rest) == Ok((Time(seconds, 0), rest))
  {
    Int64RoundTrip(seconds);
    var s := PutInt64(seconds) + rest;
    assert s[..8] == PutInt64(seconds) && s[8..] == rest;
  }

  /** Decoding an encoded record gives it back to the second, whatever the target held before and
      whatever follows the record. */
  lemma RoundTrip(r: Record, target: Record, junk: Bytes)
    requires r.Fits()
    ensures Decode(target, Encode(r) + junk) == (r.WholeSeconds(), None)
  {
    hide PutBytes, GetBytes, PutInt64, GetSeconds;
    var tail3 := PutBytes(r.urlHash) + junk;
    var tail2 := PutBytes(r.lastEtag) + tail3;
    var tail1 := PutInt64(r.lastUpdated.seconds) + tail2;
    var data := Encode(r) + junk;
    assert data == [2] + (PutBytes(r.content) + tail1);
    assert data[1..] == PutBytes(r.content) + tail1;
    GetPut(r.content, tail1);
    GetPutSeconds(r.lastUpdated.seconds, tail2);
    GetPut(r.lastEtag, tail3);
    GetPut(r.urlHash, junk);
  }

  /** Two records with one encoding agree to the second. */
  lemma EncodeInjective(a: Record, b: Record)
    requires a.Fits() && b.Fits() && Encode(a) == Encode(b)
    ensures a.WholeSeconds() == b.WholeSeconds()
  {
    RoundTrip(a, a, []);
    RoundTrip(b, a, []);
    assert Encode(a) + [] == Encode(a) && Encode(b) + [] == Encode(b);
  }

  /** A version before 2 never touches the URL hash, and neither does a failed decoding. */
  lemma HashUntouched(r: Record, data: Bytes)
    requires data == [] || data[0] < 2 || Decode(r, data).1.Some?
    ensures Decode(r, data).0.urlHash == r.urlHash
  {
  }

  lemma GetBytesFits(s: Bytes)
    ensures GetBytes(s).Ok? ==> |GetBytes(s).value.0| + |GetBytes(s).value.1| < |s|
  {
    UvarintFits(s, 0);
  }

  /** A field is replaced by bytes of the input or left alone, so what a decoding allocates never exceeds
      its input. */
  lemma DecodeBounded(r: Record, data: Bytes)
    ensures var out := Decode(r, data).0;
            && (out.content == r.content || |out.content| < |data|)
            && (out.lastEtag == r.lastEtag || |out.lastEtag| < |data|)
            && (out.urlHash == r.urlHash || |out.urlHash| < |data|)
            && (Decode(r, data).1.None? ==> |out.content| + |out.lastEtag| + 8 < |data|)
            && (Decode(r, data).1.None? && data[0] >= 2 ==>
                  |out.content| + |out.lastEtag| + |out.urlHash| + 8 < |data|)
  {
    hide GetBytes;
    if data != [] {
      GetBytesFits(data[1..]);
      if GetBytes(data[1..]).Ok? {
        var s := GetBytes(data[1..]).value.1;
        if |s| >= 8 {
          GetBytesFits(s[8..]);
          if GetBytes(s[8..]).Ok? { GetBytesFits(GetBytes(s[8..]).value.1); }
        }
      }
    }
  }

  // ---- the bytes

  /** The number a little-endian string of seven-bit groups stands for. */
  function Groups(s: Bytes): nat { if s == [] then 0 else s[0] % 128 + 128 * Groups(s[1..]) }

  /** A length on disk: seven bits a byte, the low ones first, the high bit set on every byte but the last, and
      no byte too many. */
  predicate IsLength(s: Bytes, n: nat) {
    && s != [] && Groups(s) == n && s[|s| - 1] < 128 && (n > 0 ==> s[|s| - 1] > 0)
    && forall i | 0 <= i < |s| - 1 :: s[i] >= 128
  }

  lemma {:induction false} UvarintLayout(x: nat)
    ensures IsLength(PutUvarint(x), x)
  {
    if x < 128 {
      assert [x][1..] == [];
    } else {
      var rest := PutUvarint(x / 128);
      UvarintLayout(x / 128);
      assert PutUvarint(x)[1..] == rest;
    }
  }

  /** The most significant byte first. */
  lemma {:induction false} BigEndianLayout(n: nat, width: nat, i: nat)
    requires i < width
    ensures BigEndian(n, width)[i] == n / Range(width - 1 - i) % 256
    decreases width
  {
    if i == width - 1 {
      assert Range(0) == 1;
    } else {
      BigEndianLayout(n / 256, width - 1, i);
      DivideTwice(n, Range(width - 2 - i));
    }
  }

  lemma DivideTwice(n: nat, d: nat)
    requires d > 0
    ensures n / 256 / d == n / (256 * d)
  {
    var q := n / (256 * d);
    var r := n % (256 * d);
    assert n == 256 * (d * q) + r && 0 <= r < 256 * d;
    assert n / 256 == d * q + r / 256 && 0 <= r / 256 < d;
    Quotient(d, q, r / 256);
  }

  lemma Quotient(d: nat, q: nat, r: nat)
    requires r < d
    ensures (d * q + r) / d == q
  {
    var p := (d * q + r) / d;
    assert d * p <= d * q + r < d * (p + 1);
    Monotone(d, p, q + 1);
    Monotone(d, q, p + 1);
  }

  lemma Monotone(d: nat, a: nat, b: nat)
    ensures a >= b ==> d * a >= d * b
  {
  }

  /** Eight bytes of a time in two's complement, the most significant first. */
  ghost predicate IsTime(s: Bytes, seconds: int) {
    |s| == 8 && forall i | 0 <= i < 8 :: s[i] == (seconds + UINT64) % UINT64 / Range(7 - i) % 256
  }

  /** The record on disk: version 2, then content, time, entity tag and URL hash in this order, each string
      after its length. */
  lemma EncodeLayout(r: Record)
    requires r.Fits()
    ensures exists a, time, b, c ::
              && Encode(r) == [2] + a + r.content + time + b + r.lastEtag + c + r.urlHash
              && IsLength(a, |r.content|) && IsTime(time, r.lastUpdated.seconds)
              && IsLength(b, |r.lastEtag|) && IsLength(c, |r.urlHash|)
  {
    hide PutUvarint, IsLength, IsTime;
    var seconds := r.lastUpdated.seconds;
    var a, time, b, c := PutUvarint(|r.content|), PutInt64(seconds), PutUvarint(|r.lastEtag|), PutUvarint(|r.urlHash|);
    UvarintLayout(|r.content|);
    UvarintLayout(|r.lastEtag|);
    UvarintLayout(|r.urlHash|);
    TimeLayout(seconds);
    assert Encode(r) == [2] + a + r.content + time + b + r.lastEtag + c + r.urlHash;
  }

  lemma TimeLayout(seconds: int)
    requires -INT64 <= seconds < INT64
    ensures IsTime(PutInt64(seconds), seconds)
  {
    var n := if seconds < 0 then seconds + UINT64 else seconds;
    assert n == (seconds + UINT64) % UINT64;
    forall i | 0 <= i < 8 ensures BigEndian(n, 8)[i] == n / Range(7 - i) % 256 { BigEndianLayout(n, 8, i); }
  }

  /** A record of an earlier version has no URL hash, and is read without one. */
  lemma DecodeEarlier(version: Octet, r: Record, target: Record, junk: Bytes)
    requires r.Fits() && version < 2
    ensures Decode(target, [version] + PutBytes(r.content) + PutInt64(r.lastUpdated.seconds) + PutBytes(r.lastEtag)
                           + junk)
         == (r.WholeSeconds().(urlHash := target.urlHash), None)
  {
    hide PutBytes, GetBytes, PutInt64, GetSeconds;
    var tail2 := PutBytes(r.lastEtag) + junk;
    var tail1 := PutInt64(r.lastUpdated.seconds) + tail2;
    var data := [version] + PutBytes(r.content) + PutInt64(r.lastUpdated.seconds) + PutBytes(r.lastEtag) + junk;
    assert data == [version] + (PutBytes(r.content) + tail1);
    assert data[1..] == PutBytes(r.content) + tail1;
    GetPut(r.content, tail1);
    GetPutSeconds(r.lastUpdated.seconds, tail2);
    GetPut(r.lastEtag, junk);
  }

  /** What decodes from some bytes decodes the same from more, with the rest left over. */
  lemma {:induction false} UvarintExtends(s: Bytes, more: Bytes, i: nat)
    requires i <= 10
    ensures Uvarint(s, i).Ok? ==>
              Uvarint(s + more, i) == Ok((Uvarint(s, i).value.0, Uvarint(s, i).value.1 + more))
    decreases 10 - i
  {
    if i < 10 && s != [] {
      assert (s + more)[1..] == s[1..] + more;
      UvarintExtends(s[1..], more, i + 1);
    }
  }

  lemma GetBytesExtends(s: Bytes, more: Bytes)
    ensures GetBytes(s).Ok? ==> GetBytes(s + more) == Ok((GetBytes(s).value.0, GetBytes(s).value.1 + more))
  {
    UvarintExtends(s, more, 0);
    if GetBytes(s).Ok? {
      var (n, rest) := Uvarint(s, 0).value;
      assert (rest + more)[..n] == rest[..n] && (rest + more)[n..] == rest[n..] + more;
    }
  }

  /** A record that was cut short, wherever, is refused. */
  lemma TruncatedFails(r: Record, target: Record, k: nat)
    requires r.Fits() && k < |Encode(r)|
    ensures Decode(target, Encode(r)[..k]).1.Some?
  {
    hide Encode, Decode, Left, Record.Fits;
    var data, more := Encode(r)[..k], Encode(r)[k..];
    if Decode(target, data).1.None? {
      assert Encode(r) == data + more;
      DecodeTail(target, data, more);
      EncodeTail(r);
    }
  }

  /** What is left over after the last field. */
  function Left(data: Bytes): Option<Bytes> {
    if data == [] then None else
    match GetBytes(data[1..])
    case Err(_) => None
    case Ok((_, s)) =>
      if |s| < 8 then None else
      match GetBytes(s[8..])
      case Err(_) => None
      case Ok((_, t)) =>
        if data[0] < 2 then Some(t) else match GetBytes(t) case Err(_) => None case Ok((_, u)) => Some(u)
  }

  lemma DecodeTail(target: Record, data: Bytes, more: Bytes)
    requires Decode(target, data).1.None?
    ensures Left(data).Some? && Left(data + more) == Some(Left(data).value + more)
  {
    hide GetBytes;
    assert (data + more)[1..] == data[1..] + more;
    GetBytesExtends(data[1..], more);
    var s := GetBytes(data[1..]).value.1;
    assert |s| >= 8 && (s + more)[8..] == s[8..] + more;
    GetBytesExtends(s[8..], more);
    var t := GetBytes(s[8..]).value.1;
    if data[0] >= 2 { GetBytesExtends(t, more); }
  }

  lemma EncodeTail(r: Record)
    requires r.Fits()
    ensures Left(Encode(r)) == Some([])
  {
    hide PutBytes, GetBytes, PutInt64;
    var tail3 := PutBytes(r.urlHash);
    var tail2 := PutBytes(r.lastEtag) + tail3;
    var tail1 := PutInt64(r.lastUpdated.seconds) + tail2;
    var data := Encode(r);
    assert data == [2] + (PutBytes(r.content) + tail1);
    assert data[1..] == PutBytes(r.content) + tail1;
    GetPut(r.content, tail1);
    assert |PutInt64(r.lastUpdated.seconds)| == 8 by { PutInt64Length(r.lastUpdated.seconds); }
    assert tail1[8..] == tail2;
    GetPut(r.lastEtag, tail3);
    GetPut(r.urlHash, []);
    assert tail3 + [] == tail3;
  }

  lemma PutInt64Length(x: int)
    requires -INT64 <= x < INT64
    ensures |PutInt64(x)| == 8
  {
  }

  // ---- in place

  class Reader {
    var rest: Bytes

    constructor (data: Bytes)
      ensures rest == data
    {
      rest := data;
    }

    method ReadByte() returns (b: Result<Octet>)
      modifies this
      ensures old(rest) == [] ==> b == Err(Truncated) && rest == []
      ensures old(rest) != [] ==> b == Ok(old(rest)[0]) && rest == old(rest)[1..]
    {
      if rest == [] { return Err(Truncated); }
      b := Ok(rest[0]);
      rest := rest[1..];
    }

    method ReadUvarint() returns (x: Result<nat>)
      modifies this
      ensures Uvarint(old(rest), 0).Ok? ==>
                x == Ok(Uvarint(old(rest), 0).value.0) && rest == Uvarint(old(rest), 0).value.1
      ensures Uvarint(old(rest), 0).Err? ==> x == Err(Uvarint(old(rest), 0).error)
    {
      hide Uvarint, Shifted;
      ShiftedNothing(Uvarint(rest, 0));
      var low: nat, unit: nat := 0, 1;
      for i := 0 to 10
        invariant Shifted(low, unit, Uvarint(rest, i)) == Uvarint(old(rest), 0)
      {
        ShiftedUvarint(low, unit, rest, i);
        var b := ReadByte();
        if b.Err? { return Err(b.error); }
        var digit: nat := b.value;
        if digit < 128 {
          if i == 9 && digit > 1 { return Err(Overflow); }
          low := low + unit * digit;
          return Ok(low);
        }
        low, unit := low + unit * (digit - 128), 128 * unit;
      }
      ShiftedUvarint(low, unit, rest, 10);
      x := Err(Overflow);
    }

    method ReadFull(n: nat) returns (b: Bytes)
      requires n <= |rest|
      modifies this
      ensures b == old(rest)[..n] && rest == old(rest)[n..]
    {
      b := rest[..n];
      rest := rest[n..];
    }

    method ReadBytes() returns (b: Result<Bytes>)
      modifies this
      ensures GetBytes(old(rest)).Ok? ==> b == Ok(GetBytes(old(rest)).value.0) && rest == GetBytes(old(rest)).value.1
      ensures GetBytes(old(rest)).Err? ==> b == Err(GetBytes(old(rest)).error)
    {
      var length := ReadUvarint();
      if length.Err? { return Err(length.error); }
      if length.value > |rest| { return Err(BadLength(length.value)); }
      var bytes := ReadFull(length.value);
      b := Ok(bytes);
    }
  }

  /** The value of a number whose low groups have been read. */
  ghost function Shifted(low: nat, unit: nat, r: Result<(nat, Bytes)>): Result<(nat, Bytes)> {
    if r.Err? then r else Ok((low + unit * r.value.0, r.value.1))
  }

  lemma ShiftedNothing(r: Result<(nat, Bytes)>)
    ensures Shifted(0, 1, r) == r
  {
  }

  /** One more group of a number. */
  lemma ShiftedUvarint(low: nat, unit: nat, s: Bytes, i: nat)
    requires i <= 10
    ensures var r := Shifted(low, unit, Uvarint(s, i));
            if i == 10 then r == Err(Overflow)
            else if s == [] then r == Err(Truncated)
            else if s[0] >= 128 then r == Shifted(low + unit * (s[0] - 128), 128 * unit, Uvarint(s[1..], i + 1))
            else if i == 9 && s[0] > 1 then r == Err(Overflow)
            else r == Ok((low + unit * s[0], s[1..]))
  {
    if i < 10 && s != [] && s[0] >= 128 { ShiftedStep(low, unit, s[0], Uvarint(s[1..], i + 1)); }
  }

  lemma ShiftedStep(low: nat, unit: nat, b: Octet, r: Result<(nat, Bytes)>)
    requires b >= 128
    ensures Shifted(low + unit * (b - 128), 128 * unit, r) ==
            Shifted(low, unit, if r.Err? then r else Ok((b - 128 + 128 * r.value.0, r.value.1)))
  {
    if r.Ok? {
      var v := r.value.0;
      assert unit * (b - 128 + 128 * v) == unit * (b - 128) + unit * (128 * v);
      assert unit * (128 * v) == 128 * unit * v;
    }
  }

  method WriteUvarint(buffer: Bytes, x: nat) returns (out: Bytes)
    ensures out == buffer + PutUvarint(x)
  {
    out := buffer;
    var left := x;
    while left >= 128
      invariant out + PutUvarint(left) == buffer + PutUvarint(x)
    {
      assert out + PutUvarint(left) == (out + [left % 128 + 128]) + PutUvarint(left / 128);
      out := out + [left % 128 + 128];
      left := left / 128;
    }
    out := out + [left];
  }

  class Saved {
    var content: Bytes
    var lastUpdated: Time
    var lastEtag: Bytes
    var urlHash: Bytes

    function View(): Record
      reads this
    {
      Record(content, lastUpdated, lastEtag, urlHash)
    }

    method MarshalBinary() returns (data: Bytes)
      requires View().Fits()
      ensures data == Encode(View())
    {
      hide PutUvarint;
      data := [2];
      data := WriteUvarint(data, |content|);
      data := data + content;
      data := data + PutInt64(lastUpdated.seconds);
      data := WriteUvarint(data, |lastEtag|);
      data := data + lastEtag;
      data := WriteUvarint(data, |urlHash|);
      data := data + urlHash;
    }

    method UnmarshalBinary(data: Bytes) returns (error: Option<Error>)
      modifies this
      ensures (View(), error) == Decode(old(View()), data)
    {
      hide GetBytes, Int64;
      var reader := new Reader(data);
      var version := reader.ReadByte();
      if version.Err? { return Some(version.error); }
      var bytes := reader.ReadBytes();
      if bytes.Err? { return Some(bytes.error); }
      content := bytes.value;
      if |reader.rest| < 8 { return Some(Truncated); }
      var seconds := reader.ReadFull(8);
      lastUpdated := Time(Int64(seconds), 0);
      bytes := reader.ReadBytes();
      if bytes.Err? { return Some(bytes.error); }
      lastEtag := bytes.value;
      if version.value < 2 { return None; }
      bytes := reader.ReadBytes();
      if bytes.Err? { return Some(bytes.error); }
      urlHash := bytes.value;
      error := None;
    }
  }
}
