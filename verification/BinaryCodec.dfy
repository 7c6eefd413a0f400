/**
  The hand-written binary encodings of the cache file: SavedBinary, with base-128 lengths and
  a big-endian time, and FakeIPMetadata, four fields framed by 16-bit lengths.
 */
module BinaryCodec {
  import opened Wrappers

  type Byte = x: int | 0 <= x < 256
  type Bytes = seq<Byte>

  const TWO_63 := 0x8000_0000_0000_0000
  const TWO_64 := 0x1_0000_0000_0000_0000
  type U64 = x: int | 0 <= x < TWO_64
  type I64 = x: int | -TWO_63 <= x < TWO_63

  /** What reading gives: a value and the position after it, or an error. */
  datatype Read<+T> = Got(value: T, next: nat) | Bad

  // ----- base-128 integers -----

  function EncodeUvarint(x: nat): Bytes {
    if x < 128 then [x] else [128 + x % 128] + EncodeUvarint(x / 128)
  }

  /** At most ten bytes, the tenth at most 1: the standard library's ReadUvarint.  "i" counts bytes read. */
  function DecodeUvarint(data: Bytes, pos: nat, i: nat): Read<nat>
    decreases |data| - pos
  {
    if i >= 10 || pos >= |data| then Bad
    else
      var b := data[pos];
      if b < 128 then (if i == 9 && b > 1 then Bad else Got(b, pos + 1))
      else
        match DecodeUvarint(data, pos + 1, i + 1)
        case Got(high, next) => Got(b - 128 + 128 * high, next)
        case Bad => Bad
  }

  /** How many values fit into the bytes left after i of the ten have been read. */
  function Room(i: nat): nat
    requires i <= 9
    decreases 9 - i
  {
    if i == 9 then 2 else 128 * Room(i + 1)
  }

  lemma RoomIsAll()
    ensures Room(0) == TWO_64
  {
    assert Room(8) == 256 && Room(7) == 32768 && Room(6) == 4194304 && Room(5) == 536870912;
    assert Room(4) == 68719476736 && Room(3) == 8796093022208 && Room(2) == 1125899906842624;
    assert Room(1) == 144115188075855872;
  }

  /** Do the bytes at this position start with the block? */
  predicate At(data: Bytes, pos: nat, block: Bytes) {
    pos + |block| <= |data| && forall i :: 0 <= i < |block| ==> data[pos + i] == block[i]
  }

  /** Reading back an encoding found anywhere in the data, for any value that fits in the bytes left. */
  lemma {:induction false} UvarintRoundTrip(data: Bytes, pos: nat, x: nat, i: nat)
    requires i <= 9 && x < Room(i) && At(data, pos, EncodeUvarint(x))
    ensures DecodeUvarint(data, pos, i) == Got(x, pos + |EncodeUvarint(x)|)
    decreases x
  {
    var block := EncodeUvarint(x);
    assert data[pos] == block[0];
    if x >= 128 {
      forall k | 0 <= k < |block| - 1 ensures data[pos + 1 + k] == block[1..][k] {
        assert block[1..][k] == block[k + 1];
      }
      assert EncodeUvarint(x / 128) == block[1..];
      UvarintRoundTrip(data, pos + 1, x / 128, i + 1);
    }
  }

  /** What is read depends on no byte behind it, and a read cut short fails. */
  lemma {:induction false} UvarintLocal(data: Bytes, cut: nat, pos: nat, i: nat)
    requires cut <= |data|
    ensures
      match DecodeUvarint(data, pos, i)
      case Got(x, next) =>
        pos < next <= |data| &&
        DecodeUvarint(data[..cut], pos, i) == if next <= cut then Got(x, next) else Bad
      case Bad => true
    decreases |data| - pos
  {
    if i < 10 && pos < |data| && data[pos] >= 128 {
      UvarintLocal(data, cut, pos + 1, i + 1);
    }
  }

  /** The low seven bits of each byte, the first byte weighing least. */
  function Weighed(bs: Bytes): nat { if bs == [] then 0 else bs[0] % 128 + 128 * Weighed(bs[1..]) }

  /** The encoding on the wire: groups of seven bits, least first, with the high bit on all but the last, and no empty
      last group. */
  lemma {:induction false} UvarintBytes(x: nat)
    ensures
      var bs := EncodeUvarint(x);
      && bs != [] && Weighed(bs) == x
      && (forall i :: 0 <= i < |bs| - 1 ==> bs[i] >= 128) && bs[|bs| - 1] < 128
      && (bs[|bs| - 1] == 0 ==> bs == [0])
  {
    if x < 128 {
      assert Weighed([]) == 0 && EncodeUvarint(x)[1..] == [];
    } else {
      UvarintBytes(x / 128);
      var bs, rest := EncodeUvarint(x), EncodeUvarint(x / 128);
      assert bs[1..] == rest;
      assert forall i :: 0 < i < |bs| ==> bs[i] == rest[i - 1];
    }
  }

  /** Nothing read is too large for 64 bits: a longer number is an error, not a wrapped value. */
  lemma {:induction false} UvarintFits(data: Bytes, pos: nat, i: nat)
    requires i <= 9
    ensures DecodeUvarint(data, pos, i).Got? ==> DecodeUvarint(data, pos, i).value < Room(i)
    decreases 9 - i
  {
    if i < 9 && pos < |data| && data[pos] >= 128 {
      UvarintFits(data, pos + 1, i + 1);
    } else if i == 9 && pos < |data| {
      assert DecodeUvarint(data, pos + 1, 10) == Bad;
    } else {
      RoomGrows(i);
    }
  }

  lemma {:induction false} RoomGrows(i: nat)
    requires i <= 9
    ensures Room(i) >= if i == 9 then 2 else 256
    decreases 9 - i
  {
    if i < 9 {
      RoomGrows(i + 1);
    }
  }

  // ----- big-endian integers -----

  function Pow256(n: nat): (p: nat)
    ensures p >= 1
  {
    if n == 0 then 1 else 256 * Pow256(n - 1)
  }

  function EncodeBE(x: nat, n: nat): Bytes
    requires x < Pow256(n)
    decreases x, n
  {
    if n == 0 then [] else EncodeBE(x / 256, n - 1) + [x % 256]
  }

  function ValueBE(bs: Bytes): nat {
    if bs == [] then 0 else 256 * ValueBE(bs[..|bs| - 1]) + bs[|bs| - 1]
  }

  lemma {:induction false} BERoundTrip(x: nat, n: nat)
    requires x < Pow256(n)
    ensures |EncodeBE(x, n)| == n && ValueBE(EncodeBE(x, n)) == x
    decreases n
  {
    if n > 0 {
      BERoundTrip(x / 256, n - 1);
      assert EncodeBE(x, n)[..n - 1] == EncodeBE(x / 256, n - 1);
    }
  }

  /** The first byte weighs most. */
  lemma {:induction false} FirstByteWeighsMost(b: Byte, rest: Bytes)
    ensures ValueBE([b] + rest) == b * Pow256(|rest|) + ValueBE(rest)
  {
    var all := [b] + rest;
    if rest == [] {
      assert all[..0] == [] && ValueBE(all) == 256 * ValueBE(all[..0]) + b;
    } else {
      var n := |rest| - 1;
      assert all[..|all| - 1] == [b] + rest[..n];
      FirstByteWeighsMost(b, rest[..n]);
      assert 256 * (b * Pow256(n)) == b * Pow256(n + 1);
    }
  }

  lemma Pow256Eight()
    ensures Pow256(2) == 65536 && Pow256(8) == TWO_64
  {
    assert Pow256(3) == 16777216 && Pow256(4) == 4294967296 && Pow256(5) == 1099511627776;
    assert Pow256(6) == 281474976710656 && Pow256(7) == 72057594037927936;
  }

  function ToUnsigned(x: I64): U64 { if x < 0 then x + TWO_64 else x }

  function ToSigned(x: U64): I64 { if x >= TWO_63 then x - TWO_64 else x }

  function DecodeBlock(data: Bytes, pos: nat, n: nat): (r: Read<Bytes>)
    ensures r.Got? ==> |r.value| == n
  {
    if pos + n <= |data| then Got(data[pos..pos + n], pos + n) else Bad
  }

  // ----- SavedBinary -----

  /** A Go time: seconds since the epoch, and nanoseconds. */
  datatype Time = Time(seconds: I64, nanos: nat)

  datatype Saved = Saved(content: Bytes, updated: Time, etag: Bytes)

  predicate Encodable(s: Saved) { |s.content| < TWO_64 && |s.etag| < TWO_64 }

  function EncodeTime(t: Time): Bytes {
    Pow256Eight();
    EncodeBE(ToUnsigned(t.seconds), 8)
  }

  function Encode(s: Saved): Bytes {
    [1] + EncodeUvarint(|s.content|) + s.content + EncodeTime(s.updated) + EncodeUvarint(|s.etag|) + s.etag
  }

  /** Decoding, as written: the version byte is read and ignored, and so is anything behind the tag. */
  function Decode(data: Bytes): Read<Saved> {
    if |data| == 0 then Bad
    else
      match DecodeUvarint(data, 1, 0)
      case Bad => Bad
      case Got(contentLength, p) =>
        match DecodeBlock(data, p, contentLength)
        case Bad => Bad
        case Got(content, next) => DecodeTime(data, next, content)
  }

  function DecodeTime(data: Bytes, pos: nat, content: Bytes): Read<Saved> {
    match DecodeBlock(data, pos, 8)
    case Bad => Bad
    case Got(time, next) => DecodeTag(data, next, content, TimeOf(time))
  }

  function DecodeTag(data: Bytes, pos: nat, content: Bytes, updated: Time): Read<Saved> {
    match DecodeUvarint(data, pos, 0)
    case Bad => Bad
    case Got(etagLength, p) =>
      match DecodeBlock(data, p, etagLength)
      case Bad => Bad
      case Got(etag, next) => Got(Saved(content, updated, etag), next)
  }

  function TimeOf(bytes: Bytes): Time
    requires |bytes| == 8
  {
    ValueBEBound(bytes);
    Pow256Eight();
    Time(ToSigned(ValueBE(bytes)), 0)
  }

  /** The bytes of a record: version 1, the length of the content and the content, the seconds in eight bytes, the length of
      the tag and the tag. */
  lemma SavedBytes(s: Saved)
    ensures
      var bs, c, e := Encode(s), EncodeUvarint(|s.content|), EncodeUvarint(|s.etag|);
      var time := 1 + |c| + |s.content|;
      && |bs| == time + 8 + |e| + |s.etag| && bs[0] == 1
      && At(bs, 1, c) && At(bs, 1 + |c|, s.content) && At(bs, time, EncodeTime(s.updated))
      && At(bs, time + 8, e) && At(bs, time + 8 + |e|, s.etag)
  {
    TimeRoundTrip(s.updated);
    Layout([1], EncodeUvarint(|s.content|), s.content, EncodeTime(s.updated), EncodeUvarint(|s.etag|), s.etag, []);
    assert Encode(s) + [] == Encode(s);
  }

  /** The seconds are a 64-bit two's complement number, most significant byte first. */
  lemma TimeBytes(t: Time)
    ensures |EncodeTime(t)| == 8
    ensures ValueBE(EncodeTime(t)) == if t.seconds < 0 then t.seconds + TWO_64 else t.seconds
  {
    TimeRoundTrip(t);
  }

  lemma {:induction false} ValueBEBound(bs: Bytes)
    ensures ValueBE(bs) < Pow256(|bs|)
  {
    if bs != [] {
      ValueBEBound(bs[..|bs| - 1]);
    }
  }

  /** The time as it survives: whole seconds. */
  function Truncated(s: Saved): Saved { s.(updated := Time(s.updated.seconds, 0)) }

  lemma TimeRoundTrip(t: Time)
    ensures |EncodeTime(t)| == 8
    ensures ValueBE(EncodeTime(t)) == ToUnsigned(t.seconds) && ToSigned(ToUnsigned(t.seconds)) == t.seconds
  {
    Pow256Eight();
    BERoundTrip(ToUnsigned(t.seconds), 8);
  }

  lemma AtSplit(data: Bytes, pos: nat, first: Bytes, second: Bytes)
    requires At(data, pos, first + second)
    ensures At(data, pos, first) && At(data, pos + |first|, second)
  {
    var block := first + second;
    forall i | 0 <= i < |first| ensures data[pos + i] == first[i] {
      assert block[i] == first[i];
    }
    forall i | 0 <= i < |second| ensures data[pos + |first| + i] == second[i] {
      assert block[|first| + i] == second[i];
    }
  }

  lemma Layout(a: Bytes, b: Bytes, c: Bytes, d: Bytes, e: Bytes, f: Bytes, after: Bytes)
    ensures
      var data := a + b + c + d + e + f + after;
      && At(data, |a|, b) && At(data, |a + b|, c) && At(data, |a + b + c|, d)
      && At(data, |a + b + c + d|, e) && At(data, |a + b + c + d + e|, f)
  {
    var data := a + b + c + d + e + f + after;
    assert At(data, 0, a + b + c + d + e + f);
    AtSplit(data, 0, a + b + c + d + e, f);
    AtSplit(data, 0, a + b + c + d, e);
    AtSplit(data, 0, a + b + c, d);
    AtSplit(data, 0, a + b, c);
    AtSplit(data, 0, a, b);
  }

  lemma BlockAt(data: Bytes, pos: nat, block: Bytes)
    requires At(data, pos, block)
    ensures DecodeBlock(data, pos, |block|) == Got(block, pos + |block|)
  {
    assert data[pos..pos + |block|] == block;
  }

  lemma ContentReads(data: Bytes, content: Bytes, p: nat)
    requires |data| > 0 && |content| < TWO_64 && p == 1 + |EncodeUvarint(|content|)|
    requires At(data, 1, EncodeUvarint(|content|)) && At(data, p, content)
    ensures Decode(data) == DecodeTime(data, p + |content|, content)
  {
    RoomIsAll();
    UvarintRoundTrip(data, 1, |content|, 0);
    BlockAt(data, p, content);
  }

  lemma TagReads(data: Bytes, pos: nat, content: Bytes, updated: Time, etag: Bytes, p: nat)
    requires |etag| < TWO_64 && p == pos + |EncodeUvarint(|etag|)|
    requires At(data, pos, EncodeUvarint(|etag|)) && At(data, p, etag)
    ensures DecodeTag(data, pos, content, updated) == Got(Saved(content, updated, etag), p + |etag|)
  {
    RoomIsAll();
    UvarintRoundTrip(data, pos, |etag|, 0);
    BlockAt(data, p, etag);
  }

  lemma TimeReads(data: Bytes, pos: nat, content: Bytes, t: Time)
    requires At(data, pos, EncodeTime(t))
    ensures DecodeTime(data, pos, content) == DecodeTag(data, pos + 8, content, Time(t.seconds, 0))
  {
    TimeRoundTrip(t);
    BlockAt(data, pos, EncodeTime(t));
  }

  lemma TailReads(data: Bytes, s: Saved, time: nat, tagLength: nat, tag: nat)
    requires Encodable(s)
    requires At(data, time, EncodeTime(s.updated)) && tagLength == time + 8
    requires At(data, tagLength, EncodeUvarint(|s.etag|)) && tag == tagLength + |EncodeUvarint(|s.etag|)|
    requires At(data, tag, s.etag)
    ensures DecodeTime(data, time, s.content) == Got(Truncated(s), tag + |s.etag|)
  {
    TimeReads(data, time, s.content, s.updated);
    TagReads(data, tagLength, s.content, Time(s.updated.seconds, 0), s.etag, tag);
  }

  lemma PartsRead(data: Bytes, s: Saved, content: nat, time: nat, tagLength: nat, tag: nat)
    requires Encodable(s) && |data| > 0
    requires At(data, 1, EncodeUvarint(|s.content|)) && content == 1 + |EncodeUvarint(|s.content|)|
    requires At(data, content, s.content) && time == content + |s.content|
    requires At(data, time, EncodeTime(s.updated)) && tagLength == time + 8
    requires At(data, tagLength, EncodeUvarint(|s.etag|)) && tag == tagLength + |EncodeUvarint(|s.etag|)|
    requires At(data, tag, s.etag)
    ensures Decode(data) == Got(Truncated(s), tag + |s.etag|)
  {
    ContentReads(data, s.content, content);
    TailReads(data, s, time, tagLength, tag);
  }

  /** Decoding an encoding, whatever follows it, gives back the content, the seconds and the tag. */
  lemma SavedRoundTrip(s: Saved, after: Bytes)
    requires Encodable(s)
    ensures Decode(Encode(s) + after) == Got(Truncated(s), |Encode(s)|)
  {
    var n, t, m := EncodeUvarint(|s.content|), EncodeTime(s.updated), EncodeUvarint(|s.etag|);
    var content, time := 1 + |n|, 1 + |n| + |s.content|;
    TimeRoundTrip(s.updated);
    Layout([1], n, s.content, t, m, s.etag, after);
    PartsRead(Encode(s) + after, s, content, time, time + 8, time + 8 + |m|);
  }

  lemma BlockLocal(data: Bytes, cut: nat, pos: nat, n: nat)
    requires cut <= |data| && DecodeBlock(data, pos, n).Got?
    ensures DecodeBlock(data[..cut], pos, n) == if pos + n <= cut then DecodeBlock(data, pos, n) else Bad
  {
    if pos + n <= cut {
      assert data[..cut][pos..pos + n] == data[pos..pos + n];
    }
  }

  /** A successful decoding uses exactly its first "next" bytes: any longer cut decodes alike, any shorter fails. */
  lemma SavedLocal(data: Bytes, cut: nat)
    requires cut <= |data| && Decode(data).Got?
    ensures Decode(data).next <= |data|
    ensures Decode(data[..cut]) == if Decode(data).next <= cut then Decode(data) else Bad
  {
    UvarintLocal(data, cut, 1, 0);
    var n1, p1 := DecodeUvarint(data, 1, 0).value, DecodeUvarint(data, 1, 0).next;
    BlockLocal(data, cut, p1, n1);
    var p2 := p1 + n1;
    BlockLocal(data, cut, p2, 8);
    var p3 := p2 + 8;
    UvarintLocal(data, cut, p3, 0);
    var n4, p4 := DecodeUvarint(data, p3, 0).value, DecodeUvarint(data, p3, 0).next;
    BlockLocal(data, cut, p4, n4);
  }

  /** The same data but for the first byte. */
  predicate SameBehind(a: Bytes, b: Bytes) { |a| == |b| && forall k :: 1 <= k < |a| ==> a[k] == b[k] }

  lemma {:induction false} SameUvarint(a: Bytes, b: Bytes, pos: nat, i: nat)
    requires SameBehind(a, b) && pos >= 1
    ensures DecodeUvarint(a, pos, i) == DecodeUvarint(b, pos, i)
    ensures DecodeUvarint(a, pos, i).Got? ==> DecodeUvarint(a, pos, i).next > pos
    decreases |a| - pos
  {
    if i < 10 && pos < |a| && a[pos] >= 128 {
      SameUvarint(a, b, pos + 1, i + 1);
    }
  }

  lemma SameBlock(a: Bytes, b: Bytes, pos: nat, n: nat)
    requires SameBehind(a, b) && pos >= 1
    ensures DecodeBlock(a, pos, n) == DecodeBlock(b, pos, n)
    ensures DecodeBlock(a, pos, n).Got? ==> DecodeBlock(a, pos, n).next == pos + n
  {
    if pos + n <= |a| {
      assert a[pos..pos + n] == b[pos..pos + n];
    }
  }

  lemma SameTag(a: Bytes, b: Bytes, pos: nat, content: Bytes, t: Time)
    requires SameBehind(a, b) && pos >= 1
    ensures DecodeTag(a, pos, content, t) == DecodeTag(b, pos, content, t)
  {
    SameUvarint(a, b, pos, 0);
    var e := DecodeUvarint(a, pos, 0);
    if e.Got? {
      SameBlock(a, b, e.next, e.value);
    }
  }

  lemma SameTime(a: Bytes, b: Bytes, pos: nat, content: Bytes)
    requires SameBehind(a, b) && pos >= 1
    ensures DecodeTime(a, pos, content) == DecodeTime(b, pos, content)
  {
    SameBlock(a, b, pos, 8);
    var t := DecodeBlock(a, pos, 8);
    if t.Got? {
      SameTag(a, b, t.next, content, TimeOf(t.value));
    }
  }

  /** The version byte is read, and then ignored. */
  lemma VersionIsIgnored(a: Bytes, b: Bytes)
    requires SameBehind(a, b)
    ensures Decode(a) == Decode(b)
  {
    SameUvarint(a, b, 1, 0);
    var n := DecodeUvarint(a, 1, 0);
    if n.Got? {
      SameBlock(a, b, n.next, n.value);
      var content := DecodeBlock(a, n.next, n.value);
      if content.Got? {
        SameTime(a, b, content.next, content.value);
      }
    }
  }

  /** Every strict prefix of an encoding is rejected. */
  lemma TruncatedIsRejected(s: Saved, cut: nat)
    requires Encodable(s) && cut < |Encode(s)|
    ensures Decode(Encode(s)[..cut]) == Bad
  {
    SavedRoundTrip(s, []);
    assert Encode(s) + [] == Encode(s);
    SavedLocal(Encode(s), cut);
  }

  /** Two values have the same encoding exactly when they agree up to the second. */
  lemma SameEncodingIff(a: Saved, b: Saved)
    requires Encodable(a) && Encodable(b)
    ensures Encode(a) == Encode(b) <==> Truncated(a) == Truncated(b)
  {
    SavedRoundTrip(a, []);
    SavedRoundTrip(b, []);
    assert Encode(a) + [] == Encode(a) && Encode(b) + [] == Encode(b);
  }

  // ----- the program's own form -----

  method WriteUvarint(buffer: Bytes, x0: nat) returns (r: Bytes)
    ensures r == buffer + EncodeUvarint(x0)
  {
    r := buffer;
    var x := x0;
    while x >= 128
      invariant r + EncodeUvarint(x) == buffer + EncodeUvarint(x0)
    {
      assert r + EncodeUvarint(x) == (r + [128 + x % 128]) + EncodeUvarint(x / 128);
      r := r + [128 + x % 128];
      x := x / 128;
    }
    r := r + [x];
  }

  method WriteBE(buffer: Bytes, x: nat, n: nat) returns (r: Bytes)
    requires x < Pow256(n)
    ensures r == buffer + EncodeBE(x, n)
  {
    r := buffer + EncodeBE(x, n);
  }

  /** bytes.Reader: an advancing position in the data. */
  class Reader {
    const data: Bytes
    var pos: nat

    constructor (data: Bytes)
      ensures this.data == data && pos == 0
    {
      this.data, pos := data, 0;
    }

    method ReadByte() returns (b: Option<Byte>)
      requires pos <= |data|
      modifies this
      ensures if old(pos) < |data| then b == Some(data[old(pos)]) && pos == old(pos) + 1
              else b == None && pos == old(pos)
    {
      if pos >= |data| {
        return None;
      }
      b := Some(data[pos]);
      pos := pos + 1;
    }

    /** Fills a buffer of n zero bytes with what there is; fails when there is too little. */
    method ReadFull(n: nat) returns (ok: bool, buffer: Bytes)
      requires pos <= |data|
      modifies this
      ensures |buffer| == n && pos <= |data|
      ensures match DecodeBlock(data, old(pos), n)
              case Got(block, next) => ok && buffer == block && pos == next
              case Bad => !ok
    {
      if pos + n <= |data| {
        buffer := data[pos..pos + n];
        pos := pos + n;
        return true, buffer;
      }
      buffer := data[pos..] + seq(n - (|data| - pos), i => 0);
      pos := |data|;
      return false, buffer;
    }

    method ReadUvarint() returns (r: Option<nat>)
      requires pos <= |data|
      modifies this
      ensures pos <= |data|
      ensures match DecodeUvarint(data, old(pos), 0)
              case Got(x, next) => r == Some(x) && pos == next
              case Bad => r == None
    {
      var x: nat, scale: nat, i: nat := 0, 1, 0;
      while i < 10
        invariant 0 <= i <= 10 && pos <= |data| && x >= 0 && scale >= 1
        invariant DecodeUvarint(data, old(pos), 0) == Lift(DecodeUvarint(data, pos, i), x, scale)
      {
        var b := ReadByte();
        if b.None? {
          return None;
        }
        if b.value < 128 {
          if i == 9 && b.value > 1 {
            return None;
          }
          LiftLast(b.value, pos, x, scale);
          return Some(x + scale * b.value);
        }
        LiftStep(DecodeUvarint(data, pos, i + 1), b.value, x, scale);
        x := x + scale * (b.value - 128);
        scale := scale * 128;
        i := i + 1;
      }
      return None;
    }
  }

  /** Putting the bytes already read, worth x, below a number read behind them. */
  function Lift(r: Read<nat>, x: nat, scale: nat): Read<nat> {
    match r
    case Got(high, next) => Got(x + scale * high, next)
    case Bad => Bad
  }

  lemma LiftLast(b: nat, next: nat, x: nat, scale: nat)
    ensures Lift(Got(b, next), x, scale) == Got(x + scale * b, next)
  {
  }

  lemma LiftStep(r: Read<nat>, b: nat, x: nat, scale: nat)
    requires b >= 128
    ensures
      Lift(match r { case Got(high, next) => Got(b - 128 + 128 * high, next) case Bad => Bad }, x, scale) ==
      Lift(r, x + scale * (b - 128), scale * 128)
  {
    if r.Got? {
      assert scale * (b - 128 + 128 * r.value) == scale * (b - 128) + (scale * 128) * r.value;
    }
  }

  class SavedBinary {
    var content: Bytes
    var lastUpdated: Time
    var lastEtag: Bytes

    ghost function Value(): Saved
      reads this
    {
      Saved(content, lastUpdated, lastEtag)
    }

    constructor (content: Bytes, lastUpdated: Time, lastEtag: Bytes)
      ensures Value() == Saved(content, lastUpdated, lastEtag)
    {
      this.content, this.lastUpdated, this.lastEtag := content, lastUpdated, lastEtag;
    }

    method MarshalBinary() returns (data: Bytes)
      ensures data == Encode(Value())
    {
      data := [1];
      data := WriteUvarint(data, |content|);
      data := data + content;
      Pow256Eight();
      data := WriteBE(data, ToUnsigned(lastUpdated.seconds), 8);
      data := WriteUvarint(data, |lastEtag|);
      data := data + lastEtag;
    }

    /** On failure fields already read stay assigned, as in the source; the tag is assigned last. */
    method UnmarshalBinary(data: Bytes) returns (ok: bool)
      modifies this
      ensures ok <==> Decode(data).Got?
      ensures ok ==> Value() == Decode(data).value
      ensures !ok ==> lastEtag == old(lastEtag)
    {
      var reader := new Reader(data);
      var version := reader.ReadByte();
      if version.None? {
        return false;
      }
      var contentLength := reader.ReadUvarint();
      if contentLength.None? {
        return false;
      }
      ok, content := reader.ReadFull(contentLength.value);
      if !ok {
        return false;
      }
      var readTime, time := reader.ReadFull(8);
      if !readTime {
        return false;
      }
      lastUpdated := TimeOf(time);
      var etagLength := reader.ReadUvarint();
      if etagLength.None? {
        return false;
      }
      var readTag, etag := reader.ReadFull(etagLength.value);
      if !readTag {
        return false;
      }
      lastEtag := etag;
      return true;
    }
  }

  // ----- FakeIPMetadata -----

  /** The result of reading framed fields; a cut length field panics, a cut field is an error. */
  datatype Unframed = Fields(fields: seq<Bytes>) | Failed | Panicked

  function Length16(n: nat): Bytes {
    Pow256Eight();
    EncodeBE(n % 65536, 2)
  }

  /** The length is written as uint16: longer fields are cut modulo 65536. */
  function Frames(es: seq<Bytes>): Bytes {
    if es == [] then [] else Frames(es[..|es| - 1]) + Length16(|es[|es| - 1]|) + es[|es| - 1]
  }

  function Unframe(data: Bytes, pos: nat, k: nat): Unframed
    decreases k
  {
    if k == 0 then Fields([])
    else if pos + 2 > |data| then Panicked
    else
      var n := ValueBE(data[pos..pos + 2]);
      if pos + 2 + n > |data| then Failed
      else
        match Unframe(data, pos + 2 + n, k - 1)
        case Fields(rest) => Fields([data[pos + 2..pos + 2 + n]] + rest)
        case other => other
  }

  lemma {:induction false} UnframedAreShort(data: Bytes, pos: nat, k: nat)
    ensures
      var u := Unframe(data, pos, k);
      u.Fields? ==> |u.fields| == k && forall i :: 0 <= i < k ==> |u.fields[i]| < 65536
    decreases k
  {
    if k > 0 && pos + 2 <= |data| {
      var n := ValueBE(data[pos..pos + 2]);
      ValueBEBound(data[pos..pos + 2]);
      Pow256Eight();
      UnframedAreShort(data, pos + 2 + n, k - 1);
    }
  }

  lemma {:induction false} FramesFront(e: Bytes, es: seq<Bytes>)
    ensures Frames([e] + es) == Length16(|e|) + e + Frames(es)
    decreases |es|
  {
    if es == [] {
      assert [e] + es == [e] && [e][..0] == [];
      assert Frames([e]) == [] + Length16(|e|) + e;
    } else {
      var n := |es| - 1;
      assert ([e] + es)[..|es|] == [e] + es[..n];
      FramesFront(e, es[..n]);
      assert Length16(|e|) + e + (Frames(es[..n]) + Length16(|es[n]|) + es[n]) ==
             (Length16(|e|) + e + Frames(es[..n])) + Length16(|es[n]|) + es[n];
    }
  }

  /** A frame at the front of the rest is read off whole. */
  lemma Length16Value(n: nat)
    requires n < 65536
    ensures |Length16(n)| == 2 && ValueBE(Length16(n)) == n
  {
    Pow256Eight();
    BERoundTrip(n % 65536, 2);
  }

  lemma ReadsPart(before: Bytes, size: Bytes, e: Bytes, tail: Bytes)
    ensures
      var data := before + (size + e + tail);
      var p := |before| + |size|;
      && data[|before|..p] == size && data[p..p + |e|] == e
      && data == (before + size + e) + tail
  {
  }

  lemma OneFrame(before: Bytes, e: Bytes, tail: Bytes)
    requires |e| < 65536
    ensures
      var data := before + (Length16(|e|) + e + tail);
      var p := |before| + 2;
      && |data| == p + |e| + |tail|
      && ValueBE(data[|before|..p]) == |e|
      && data[p..p + |e|] == e
      && data == (before + Length16(|e|) + e) + tail
      && |before + Length16(|e|) + e| == p + |e|
  {
    Length16Value(|e|);
    ReadsPart(before, Length16(|e|), e, tail);
  }

  /** A frame on the wire: the length in two bytes, high byte first, then the field. */
  lemma FrameBytes(e: Bytes, es: seq<Bytes>)
    requires |e| < 65536
    ensures Frames([e] + es) == [|e| / 256, |e| % 256] + e + Frames(es)
  {
    FramesFront(e, es);
    Pow256Eight();
    var n := |e|;
    assert Pow256(1) == 256;
    assert EncodeBE(n / 256 / 256, 0) == [];
    assert EncodeBE(n / 256, 1) == [] + [n / 256 % 256];
    assert Length16(n) == [n / 256] + [n % 256];
  }

  lemma {:induction false} UnframeFrames(before: Bytes, es: seq<Bytes>, after: Bytes)
    requires forall i :: 0 <= i < |es| ==> |es[i]| < 65536
    ensures Unframe(before + (Frames(es) + after), |before|, |es|) == Fields(es)
    ensures FramesEnd(before + (Frames(es) + after), |before|, |es|) == |before| + |Frames(es)|
    decreases |es|
  {
    if es != [] {
      var e, rest := es[0], es[1..];
      assert es == [e] + rest;
      FramesFront(e, rest);
      var head := before + Length16(|e|) + e;
      var data := before + (Frames(es) + after);
      assert data == before + (Length16(|e|) + e + (Frames(rest) + after)) by {
        assert Frames(es) + after == Length16(|e|) + e + (Frames(rest) + after);
      }
      OneFrame(before, e, Frames(rest) + after);
      UnframeFrames(head, rest, after);
      UnframeOnce(data, |before|, e, rest, |head|);
    }
  }

  lemma UnframeOnce(data: Bytes, pos: nat, e: Bytes, rest: seq<Bytes>, next: nat)
    requires next == pos + 2 + |e| <= |data|
    requires ValueBE(data[pos..pos + 2]) == |e| && data[pos + 2..next] == e
    requires Unframe(data, next, |rest|) == Fields(rest)
    ensures Unframe(data, pos, |rest| + 1) == Fields([e] + rest)
    ensures FramesEnd(data, pos, |rest| + 1) == FramesEnd(data, next, |rest|)
  {
  }

  /** The frames give back the fields exactly when every field is shorter than 65536 bytes. */
  lemma FramesRoundTripIff(es: seq<Bytes>)
    ensures Unframe(Frames(es), 0, |es|) == Fields(es) <==> forall i :: 0 <= i < |es| ==> |es[i]| < 65536
  {
    UnframedAreShort(Frames(es), 0, |es|);
    if forall i :: 0 <= i < |es| ==> |es[i]| < 65536 {
      UnframeFrames([], es, []);
      assert [] + (Frames(es) + []) == Frames(es);
    }
  }

  /** A frame sequence cut short is never read as complete. */
  lemma {:induction false} UnframeLocal(data: Bytes, cut: nat, pos: nat, k: nat)
    requires pos <= cut <= |data| && Unframe(data, pos, k).Fields?
    ensures Unframe(data[..cut], pos, k).Fields? <==> cut >= FramesEnd(data, pos, k)
    decreases k
  {
    FramesEndGrows(data, pos, k);
    if k > 0 {
      var n := ValueBE(data[pos..pos + 2]);
      FramesEndGrows(data, pos + 2 + n, k - 1);
      if pos + 2 <= cut {
        assert data[..cut][pos..pos + 2] == data[pos..pos + 2];
        if pos + 2 + n <= cut {
          UnframeLocal(data, cut, pos + 2 + n, k - 1);
        }
      }
    }
  }

  function FramesEnd(data: Bytes, pos: nat, k: nat): nat
    requires Unframe(data, pos, k).Fields?
    decreases k
  {
    if k == 0 then pos else FramesEnd(data, pos + 2 + ValueBE(data[pos..pos + 2]), k - 1)
  }

  lemma {:induction false} FramesEndGrows(data: Bytes, pos: nat, k: nat)
    requires Unframe(data, pos, k).Fields?
    ensures pos <= FramesEnd(data, pos, k)
    decreases k
  {
    if k > 0 {
      FramesEndGrows(data, pos + 2 + ValueBE(data[pos..pos + 2]), k - 1);
    }
  }

  /** Every strict prefix of the frames is rejected: by a panic inside a length, by an error inside a field. */
  lemma CutFramesAreRejected(es: seq<Bytes>, cut: nat)
    requires (forall i :: 0 <= i < |es| ==> |es[i]| < 65536) && cut < |Frames(es)|
    ensures !Unframe(Frames(es)[..cut], 0, |es|).Fields?
  {
    UnframeFrames([], es, []);
    assert [] + (Frames(es) + []) == Frames(es);
    UnframeLocal(Frames(es), cut, 0, |es|);
  }

  method MarshalFrames(es: seq<Bytes>) returns (buffer: Bytes)
    ensures buffer == Frames(es)
  {
    buffer := [];
    var i := 0;
    while i < |es|
      invariant 0 <= i <= |es|
      invariant buffer == Frames(es[..i])
    {
      assert es[..i + 1][..i] == es[..i];
      var data := es[i];
      Pow256Eight();
      buffer := WriteBE(buffer, |data| % 65536, 2);
      buffer := buffer + data;
      i := i + 1;
    }
    assert es[..i] == es;
  }

  function Prepend(fields: seq<Bytes>, u: Unframed): Unframed {
    match u case Fields(rest) => Fields(fields + rest) case other => other
  }

  lemma UnframeAhead(data: Bytes, pos: nat, n: nat, k: nat, fields: seq<Bytes>)
    requires k > 0 && pos + 2 + n <= |data| && n == ValueBE(data[pos..pos + 2])
    ensures Prepend(fields, Unframe(data, pos, k)) ==
      Prepend(fields + [data[pos + 2..pos + 2 + n]], Unframe(data, pos + 2 + n, k - 1))
  {
    var rest := Unframe(data, pos + 2 + n, k - 1);
    if rest.Fields? {
      var e := data[pos + 2..pos + 2 + n];
      assert fields + ([e] + rest.fields) == (fields + [e]) + rest.fields;
    }
  }

  method UnmarshalFrames(data: Bytes, k: nat) returns (u: Unframed)
    ensures u == Unframe(data, 0, k)
  {
    var fields: seq<Bytes> := [];
    var pos, i := 0, 0;
    assert Unframe(data, 0, k).Fields? ==> [] + Unframe(data, 0, k).fields == Unframe(data, 0, k).fields;
    while i < k
      invariant 0 <= i <= k && 0 <= pos
      invariant Unframe(data, 0, k) == Prepend(fields, Unframe(data, pos, k - i))
    {
      if pos + 2 > |data| {
        return Panicked;
      }
      var n := ValueBE(data[pos..pos + 2]);
      if pos + 2 + n > |data| {
        return Failed;
      }
      UnframeAhead(data, pos, n, k - i, fields);
      fields := fields + [data[pos + 2..pos + 2 + n]];
      pos := pos + 2 + n;
      i := i + 1;
    }
    assert fields + [] == fields;
    return Fields(fields);
  }

  // ----- the metadata itself, given codecs of its elements -----

  /** What the element types bring: encoding and decoding may each fail. */
  datatype Codec<!T> = Codec(encode: T -> Option<Bytes>, decode: Bytes -> Option<T>) {
    ghost predicate Inverts(x: T) { encode(x).Some? && decode(encode(x).value) == Some(x) }

    ghost predicate Canonical() { forall b :: decode(b).Some? ==> encode(decode(b).value) == Some(b) }
  }

  datatype Metadata<P, A> = Metadata(inet4Range: P, inet6Range: P, inet4Current: A, inet6Current: A)

  /** Reading one element: a cut length panics, everything else that goes wrong is an error. */
  datatype Element<+T> = Element(value: T, next: nat) | ElementFailed | ElementPanicked

  function Elements<P, A>(m: Metadata<P, A>, prefix: Codec<P>, addr: Codec<A>): seq<Option<Bytes>> {
    [prefix.encode(m.inet4Range), prefix.encode(m.inet6Range), addr.encode(m.inet4Current), addr.encode(m.inet6Current)]
  }

  function AllOf(es: seq<Option<Bytes>>): Option<seq<Bytes>> {
    if forall i :: 0 <= i < |es| ==> es[i].Some? then Some(seq(|es|, i requires 0 <= i < |es| => es[i].value)) else None
  }

  function EncodeMetadata<P, A>(m: Metadata<P, A>, prefix: Codec<P>, addr: Codec<A>): Option<Bytes> {
    var fields := AllOf(Elements(m, prefix, addr));
    if fields.Some? then Some(Frames(fields.value)) else None
  }

  function ReadElement<T>(data: Bytes, pos: nat, decode: Bytes -> Option<T>): Element<T> {
    if pos + 2 > |data| then ElementPanicked
    else
      var n := ValueBE(data[pos..pos + 2]);
      if pos + 2 + n > |data| then ElementFailed
      else
        match decode(data[pos + 2..pos + 2 + n])
        case Some(x) => Element(x, pos + 2 + n)
        case None => ElementFailed
  }

  function ReadPair<T>(data: Bytes, pos: nat, decode: Bytes -> Option<T>): Element<(T, T)> {
    match ReadElement(data, pos, decode)
    case Element(x, p) =>
      (match ReadElement(data, p, decode)
       case Element(y, q) => Element((x, y), q)
       case ElementFailed => ElementFailed
       case ElementPanicked => ElementPanicked)
    case ElementFailed => ElementFailed
    case ElementPanicked => ElementPanicked
  }

  function DecodeMetadata<P, A>(data: Bytes, prefix: Codec<P>, addr: Codec<A>): Element<Metadata<P, A>> {
    match ReadPair(data, 0, prefix.decode)
    case Element(ranges, p) =>
      (match ReadPair(data, p, addr.decode)
       case Element(currents, q) => Element(Metadata(ranges.0, ranges.1, currents.0, currents.1), q)
       case ElementFailed => ElementFailed
       case ElementPanicked => ElementPanicked)
    case ElementFailed => ElementFailed
    case ElementPanicked => ElementPanicked
  }

  /** Nothing is returned unless every element could be encoded. */
  method MarshalMetadata<P, A>(m: Metadata<P, A>, prefix: Codec<P>, addr: Codec<A>) returns (data: Option<Bytes>)
    ensures data == EncodeMetadata(m, prefix, addr)
  {
    var elements := Elements(m, prefix, addr);
    var buffer: Bytes := [];
    ghost var fields: seq<Bytes> := [];
    var i := 0;
    while i < |elements|
      invariant 0 <= i <= |elements| && |fields| == i
      invariant forall j :: 0 <= j < i ==> elements[j] == Some(fields[j])
      invariant buffer == Frames(fields)
    {
      if elements[i].None? {
        return None;
      }
      var element := elements[i].value;
      Pow256Eight();
      assert (fields + [element])[..|fields|] == fields;
      buffer := WriteBE(buffer, |element| % 65536, 2);
      buffer := buffer + element;
      fields := fields + [element];
      i := i + 1;
    }
    assert AllOf(elements).value == fields;
    return Some(buffer);
  }

  method NextElement<T>(data: Bytes, pos: nat, decode: Bytes -> Option<T>) returns (e: Element<T>)
    ensures e == ReadElement(data, pos, decode)
  {
    if pos + 2 > |data| {
      return ElementPanicked;
    }
    var n := ValueBE(data[pos..pos + 2]);
    if pos + 2 + n > |data| {
      return ElementFailed;
    }
    var x := decode(data[pos + 2..pos + 2 + n]);
    if x.None? {
      return ElementFailed;
    }
    return Element(x.value, pos + 2 + n);
  }

  datatype Unmarshaled = Complete | Incomplete | Crashed

  /** The receiver: its fields are filled one after the other, also when a later one fails. */
  class FakeIPMetadata<P, A> {
    var inet4Range: P
    var inet6Range: P
    var inet4Current: A
    var inet6Current: A

    constructor (inet4Range: P, inet6Range: P, inet4Current: A, inet6Current: A)
      ensures Value() == Metadata(inet4Range, inet6Range, inet4Current, inet6Current)
    {
      this.inet4Range, this.inet6Range, this.inet4Current, this.inet6Current := inet4Range, inet6Range, inet4Current, inet6Current;
    }

    ghost function Value(): Metadata<P, A>
      reads this
    {
      Metadata(inet4Range, inet6Range, inet4Current, inet6Current)
    }

    method UnmarshalBinary(data: Bytes, prefix: Codec<P>, addr: Codec<A>) returns (r: Unmarshaled)
      modifies this
      ensures
        var d := DecodeMetadata(data, prefix, addr);
        && (r == Complete <==> d.Element?) && (r == Crashed <==> d.ElementPanicked?)
        && (r == Complete ==> Value() == d.value)
        && (ReadPair(data, 0, prefix.decode).Element? ==> (inet4Range, inet6Range) == ReadPair(data, 0, prefix.decode).value)
    {
      var e := NextElement(data, 0, prefix.decode);
      if !e.Element? {
        return if e.ElementPanicked? then Crashed else Incomplete;
      }
      inet4Range := e.value;
      e := NextElement(data, e.next, prefix.decode);
      if !e.Element? {
        return if e.ElementPanicked? then Crashed else Incomplete;
      }
      inet6Range := e.value;
      var c := NextElement(data, e.next, addr.decode);
      if !c.Element? {
        return if c.ElementPanicked? then Crashed else Incomplete;
      }
      inet4Current := c.value;
      c := NextElement(data, c.next, addr.decode);
      if !c.Element? {
        return if c.ElementPanicked? then Crashed else Incomplete;
      }
      inet6Current := c.value;
      return Complete;
    }
  }

  /** One element is one frame. */
  lemma ElementIsFrame<T>(data: Bytes, pos: nat, k: nat, decode: Bytes -> Option<T>)
    requires k > 0
    ensures
      var e, u := ReadElement(data, pos, decode), Unframe(data, pos, k);
      && (u.Fields? ==> u.fields != [])
      && (e.Element? && Unframe(data, e.next, k - 1).Fields? <==> u.Fields? && decode(u.fields[0]).Some?)
      && (e.Element? && u.Fields? ==>
            decode(u.fields[0]) == Some(e.value) && u.fields == [u.fields[0]] + Unframe(data, e.next, k - 1).fields &&
            FramesEnd(data, pos, k) == FramesEnd(data, e.next, k - 1))
  {
  }

  /** A pair of elements is two frames. */
  lemma PairIsFrames<T>(data: Bytes, pos: nat, k: nat, decode: Bytes -> Option<T>)
    requires k > 1
    ensures
      var e, u := ReadPair(data, pos, decode), Unframe(data, pos, k);
      && (u.Fields? ==> |u.fields| >= 2)
      && (e.Element? && Unframe(data, e.next, k - 2).Fields? <==>
            u.Fields? && decode(u.fields[0]).Some? && decode(u.fields[1]).Some?)
      && (e.Element? && u.Fields? ==>
            && decode(u.fields[0]) == Some(e.value.0) && decode(u.fields[1]) == Some(e.value.1)
            && u.fields == [u.fields[0], u.fields[1]] + Unframe(data, e.next, k - 2).fields
            && FramesEnd(data, pos, k) == FramesEnd(data, e.next, k - 2))
  {
    ElementIsFrame(data, pos, k, decode);
    UnframedAreShort(data, pos, k);
    var e := ReadElement(data, pos, decode);
    if e.Element? {
      ElementIsFrame(data, e.next, k - 1, decode);
    }
  }

  /** The metadata is read exactly when its four frames are and the elements in them decode, and then it is
      these, and reading stopped behind the fourth frame. */
  lemma MetadataIsFrames<P, A>(data: Bytes, prefix: Codec<P>, addr: Codec<A>)
    ensures
      var d, u := DecodeMetadata(data, prefix, addr), Unframe(data, 0, 4);
      && (u.Fields? ==> |u.fields| == 4)
      && (d.Element? <==>
            && u.Fields? && prefix.decode(u.fields[0]).Some? && prefix.decode(u.fields[1]).Some?
            && addr.decode(u.fields[2]).Some? && addr.decode(u.fields[3]).Some?)
      && (d.Element? ==>
            && prefix.decode(u.fields[0]) == Some(d.value.inet4Range) && prefix.decode(u.fields[1]) == Some(d.value.inet6Range)
            && addr.decode(u.fields[2]) == Some(d.value.inet4Current) && addr.decode(u.fields[3]) == Some(d.value.inet6Current)
            && d.next == FramesEnd(data, 0, 4))
  {
    UnframedAreShort(data, 0, 4);
    PairIsFrames(data, 0, 4, prefix.decode);
    var ranges := ReadPair(data, 0, prefix.decode);
    if ranges.Element? {
      PairIsFrames(data, ranges.next, 2, addr.decode);
    }
  }

  /** These are the encodings of the elements of m. */
  predicate FieldsOf<P, A>(m: Metadata<P, A>, prefix: Codec<P>, addr: Codec<A>, fields: seq<Bytes>) {
    && |fields| == 4
    && prefix.encode(m.inet4Range) == Some(fields[0]) && prefix.encode(m.inet6Range) == Some(fields[1])
    && addr.encode(m.inet4Current) == Some(fields[2]) && addr.encode(m.inet6Current) == Some(fields[3])
  }

  predicate AllShort(fields: seq<Bytes>) { forall i :: 0 <= i < |fields| ==> |fields[i]| < 65536 }

  lemma EncodedIsFrames<P, A>(m: Metadata<P, A>, prefix: Codec<P>, addr: Codec<A>, fields: seq<Bytes>)
    requires FieldsOf(m, prefix, addr, fields)
    ensures EncodeMetadata(m, prefix, addr) == Some(Frames(fields))
  {
    var es := Elements(m, prefix, addr);
    assert forall i :: 0 <= i < 4 ==> es[i] == Some(fields[i]);
    assert AllOf(es).value == fields;
  }

  ghost predicate AllInvert<P, A>(m: Metadata<P, A>, prefix: Codec<P>, addr: Codec<A>) {
    && prefix.Inverts(m.inet4Range) && prefix.Inverts(m.inet6Range)
    && addr.Inverts(m.inet4Current) && addr.Inverts(m.inet6Current)
  }

  lemma ShortComesBack<P, A>(m: Metadata<P, A>, prefix: Codec<P>, addr: Codec<A>, fields: seq<Bytes>)
    requires AllInvert(m, prefix, addr) && FieldsOf(m, prefix, addr, fields) && AllShort(fields)
    ensures DecodeMetadata(Frames(fields), prefix, addr) == Element(m, |Frames(fields)|)
  {
    UnframeFrames([], fields, []);
    assert [] + (Frames(fields) + []) == Frames(fields);
    MetadataIsFrames(Frames(fields), prefix, addr);
  }

  lemma CanonicalIs<T>(c: Codec<T>, b: Bytes, x: T)
    requires c.Canonical() && c.decode(b) == Some(x)
    ensures c.encode(x) == Some(b)
  {
  }

  /** Fields that decode to m under canonical codecs are its encodings. */
  lemma SameFields<P, A>(m: Metadata<P, A>, prefix: Codec<P>, addr: Codec<A>, fields: seq<Bytes>, read: seq<Bytes>)
    requires FieldsOf(m, prefix, addr, fields) && prefix.Canonical() && addr.Canonical() && |read| == 4
    requires prefix.decode(read[0]) == Some(m.inet4Range) && prefix.decode(read[1]) == Some(m.inet6Range)
    requires addr.decode(read[2]) == Some(m.inet4Current) && addr.decode(read[3]) == Some(m.inet6Current)
    ensures read == fields
  {
    CanonicalIs(prefix, read[0], m.inet4Range);
    CanonicalIs(prefix, read[1], m.inet6Range);
    CanonicalIs(addr, read[2], m.inet4Current);
    CanonicalIs(addr, read[3], m.inet6Current);
  }

  lemma OnlyShortComesBack<P, A>(m: Metadata<P, A>, prefix: Codec<P>, addr: Codec<A>, fields: seq<Bytes>)
    requires FieldsOf(m, prefix, addr, fields) && prefix.Canonical() && addr.Canonical()
    requires
      var d := DecodeMetadata(Frames(fields), prefix, addr);
      d.Element? && d.value == m
    ensures AllShort(fields)
  {
    MetadataIsFrames(Frames(fields), prefix, addr);
    SameFields(m, prefix, addr, fields, Unframe(Frames(fields), 0, 4).fields);
    FramesRoundTripIff(fields);
  }

  /** Where the element codecs invert themselves, the metadata comes back if every element is encoded in fewer than
      65536 bytes; if they are canonical as well, only then. */
  lemma MetadataRoundTripIff<P, A>(m: Metadata<P, A>, prefix: Codec<P>, addr: Codec<A>, fields: seq<Bytes>)
    requires AllInvert(m, prefix, addr) && FieldsOf(m, prefix, addr, fields)
    ensures EncodeMetadata(m, prefix, addr) == Some(Frames(fields))
    ensures
      var d := DecodeMetadata(Frames(fields), prefix, addr);
      && (AllShort(fields) ==> d == Element(m, |Frames(fields)|))
      && (prefix.Canonical() && addr.Canonical() ==> (d.Element? && d.value == m <==> AllShort(fields)))
  {
    EncodedIsFrames(m, prefix, addr, fields);
    if AllShort(fields) {
      ShortComesBack(m, prefix, addr, fields);
    }
    var d := DecodeMetadata(Frames(fields), prefix, addr);
    if prefix.Canonical() && addr.Canonical() && d.Element? && d.value == m {
      OnlyShortComesBack(m, prefix, addr, fields);
    }
  }

  /** Every strict prefix is rejected, whatever the element codecs accept. */
  lemma CutMetadataIsRejected<P, A>(m: Metadata<P, A>, prefix: Codec<P>, addr: Codec<A>, fields: seq<Bytes>, cut: nat)
    requires FieldsOf(m, prefix, addr, fields) && AllShort(fields) && cut < |Frames(fields)|
    ensures EncodeMetadata(m, prefix, addr) == Some(Frames(fields))
    ensures !DecodeMetadata(Frames(fields)[..cut], prefix, addr).Element?
  {
    EncodedIsFrames(m, prefix, addr, fields);
    CutFramesAreRejected(fields, cut);
    MetadataIsFrames(Frames(fields)[..cut], prefix, addr);
  }
}
