/**
 * GroupVarintEncoder and GroupVarintDecoder (folly/GroupVarint.h) on byte buffers, against
 * the stream format of GroupVarintStream.  Every store writes a value's full width and the
 * next one overwrites the surplus; every load reads the full width and masks it.
 */
module GroupVarint {
  import opened Common
  import opened GroupVarintStream
  import opened GroupVarintBytes

  // ---------------------------------------------------------------------- one group

  /** storeUnaligned of an n-byte integer. */
  method StoreUnaligned(tmp: array<byte>, p: nat, x: nat, n: nat)
    requires p + n <= tmp.Length
    modifies tmp
    ensures tmp[..p] == old(tmp[..p]) && tmp[p..p + n] == LE(x, n)
  {
    var rest := x;
    assert tmp[p..p] == LE(x, 0);
    for i := 0 to n
      invariant tmp[..p] == old(tmp[..p]) && tmp[p..p + i] == LE(x, i)
      invariant rest == Drop(x, i)
    {
      NextByte(x, i);
      tmp[p + i] := rest % 256;
      assert tmp[p..p + i + 1] == tmp[p..p + i] + [rest % 256];
      rest := rest / 256;
    }
  }

  /** x without its i low bytes. */
  function Drop(x: nat, i: nat): nat { if i == 0 then x else Drop(x, i - 1) / 256 }

  lemma {:induction false} NextByte(x: nat, i: nat)
    ensures LE(x, i + 1) == LE(x, i) + [Drop(x, i) % 256]
    decreases i
  {
    if i > 0 {
      NextByte(x / 256, i - 1);
      DropShift(x, i - 1);
      assert [x % 256] + (LE(x / 256, i - 1) + [Drop(x, i) % 256]) == ([x % 256] + LE(x / 256, i - 1)) + [Drop(x, i) % 256];
    }
  }

  lemma {:induction false} DropShift(x: nat, i: nat)
    ensures Drop(x / 256, i) == Drop(x, i + 1)
  {
    if i > 0 {
      DropShift(x, i - 1);
    }
  }

  /** One value: its low bytes stay, the zeros above them will be overwritten. */
  method StoreValue(w: Width, tmp: array<byte>, p: nat, x: nat) returns (q: nat)
    requires Fits(w, x) && p + Bytes(w) <= tmp.Length
    modifies tmp
    ensures q == p + Length(x) <= p + Bytes(w)
    ensures tmp[..p] == old(tmp[..p]) && tmp[p..q] == LE(x, Length(x))
  {
    StoreUnaligned(tmp, p, x, Bytes(w));
    KeyIsLength(w, x);
    LowPrefix(x, Length(x), Bytes(w));
    q := p + Key(w, x) + 1;
    assert tmp[p..q] == tmp[p..p + Bytes(w)][..Length(x)];
  }

  /** encode: kMaxSize bytes are enough although each store writes a full width. */
  method Encode(w: Width, ghost c: Codec, tmp: array<byte>, vals: seq<nat>) returns (p: nat)
    requires IsCodec(w, c) && c.AllFit(vals) && |vals| == c.group && tmp.Length == MaxSize(w)
    modifies tmp
    ensures p <= tmp.Length && tmp[..p] == Group(c, vals)
  {
    var keys: seq<nat> := seq(|vals|, i requires 0 <= i < |vals| => Length(vals[i]) - 1);
    KeysAre(c, vals, keys);
    assert At(keys);
    StoreUnaligned(tmp, 0, PackNum(w, keys), HeaderSize(w));
    p := HeaderSize(w);
    assert tmp[..p] == tmp[0..0 + HeaderSize(w)] == c.pack(keys);
    p := EncodeBody(w, c, tmp, p, vals);
  }

  lemma KeysAre(c: Codec, vals: seq<nat>, keys: seq<nat>)
    requires StoresLE(c) && |vals| == |keys| == c.group && forall i | 0 <= i < |vals| :: keys[i] == Length(vals[i]) - 1
    ensures keys == Keys(c, vals)
  {
    forall i | 0 <= i < |vals| ensures keys[i] == Keys(c, vals)[i] {
      assert At(vals[i]);
    }
  }

  method EncodeBody(w: Width, ghost c: Codec, tmp: array<byte>, start: nat, vals: seq<nat>) returns (p: nat)
    requires StoresLE(c) && c.width == Bytes(w) && c.AllFit(vals) && start + Times(w, |vals|) <= tmp.Length
    modifies tmp
    ensures start <= p <= tmp.Length && tmp[..p] == old(tmp[..start]) + Body(c, vals)
  {
    p := start;
    ghost var header := tmp[..start];
    assert tmp[..p] == header + Body(c, vals[..0]);
    for i := 0 to |vals|
      invariant start <= p <= start + Times(w, i)
      invariant tmp[..p] == header + Body(c, vals[..i])
    {
      assert At(vals[i]) && c.len(vals[i]) <= c.width;
      var q := StoreValue(w, tmp, p, vals[i]);
      BodySplit(c, vals, i);
      Extend(tmp[..q], tmp[..p], tmp[p..q], header, Body(c, vals[..i]), c.store(vals[i]));
      p := q;
    }
    assert vals[..|vals|] == vals;
  }

  lemma Extend(all: seq<byte>, a: seq<byte>, b: seq<byte>, header: seq<byte>, body: seq<byte>, x: seq<byte>)
    requires all == a + b && a == header + body && b == x
    ensures all == header + (body + x)
  {
  }

  /** partialSize. */
  method PartialSize(w: Width, ghost c: Codec, vals: seq<nat>, count: nat) returns (s: nat)
    requires StoresLE(c) && c.width == Bytes(w) && c.AllFit(vals) && count <= |vals|
    ensures s == HeaderSize(w) + |Body(c, vals[..count])|
  {
    s := HeaderSize(w) + count;
    for i := 0 to count
      invariant s == HeaderSize(w) + count - i + |Body(c, vals[..i])|
    {
      assert At(vals[i]) && c.len(vals[i]) <= c.width;
      KeyIsLength(w, vals[i]);
      BodySplit(c, vals, i);
      s := s + Key(w, vals[i]);
    }
  }

  // ---------------------------------------------------------------------- encoder

  class Encoder {
    const w: Width
    ghost const c: Codec
    const buf: array<nat>
    const tmp: array<byte>
    var count: nat
    var out: seq<byte>          // what the output has received
    ghost var base: seq<byte>   // what it had at the last finish
    ghost var done: seq<nat>    // values written since, in whole groups

    /** Valid, except that the buffer may be full. */
    ghost predicate Consistent()
      reads this, buf, tmp
    {
      && IsCodec(w, c) && buf.Length == GroupSize(w) && tmp.Length == MaxSize(w)
      && count <= buf.Length && c.AllFit(buf[..count]) && WholeGroups(c, done)
      && out == base + Stream(c, done)
    }

    ghost predicate Valid()
      reads this, buf, tmp
    {
      Consistent() && count < buf.Length
    }

    /** The values added since the last finish. */
    ghost function Fed(): seq<nat>
      requires Consistent()
      reads this, buf, tmp
    {
      done + buf[..count]
    }

    constructor (width: Width, ghost codec: Codec)
      requires IsCodec(width, codec)
      ensures Valid() && w == width && c == codec && out == [] && base == [] && Fed() == [] && fresh(buf) && fresh(tmp)
    {
      w, c := width, codec;
      buf := new nat[GroupSize(width)](_ => 0);
      tmp := new byte[MaxSize(width)](_ => 0);
      count, out, base, done := 0, [], [], [];
    }

    method Add(val: nat)
      requires Valid() && Fits(w, val)
      modifies this, buf, tmp
      ensures Valid() && Fed() == old(Fed()) + [val] && base == old(base)
    {
      buf[count] := val;
      count := count + 1;
      assert buf[..count] == old(buf[..count]) + [val];
      assert At(val);
      AllFitAppend(c, old(buf[..count]), val);
      assert done + buf[..count] == old(Fed()) + [val];
      if count == GroupSize(w) {
        Flush();
      }
    }

    /** Writes the full buffer. */
    method Flush()
      requires Consistent() && count == GroupSize(w)
      modifies this, tmp
      ensures Valid() && Fed() == old(Fed()) && base == old(base)
    {
      assert buf[..count] == buf[..];
      var p := Encode(w, c, tmp, buf[..]);
      AppendGroup(c, base, out, done, buf[..]);
      WholeGroupsAppend(c, done, buf[..]);
      out, done, count := out + tmp[..p], done + buf[..], 0;
    }

    /** Flushes a short last group. */
    method Finish()
      requires Valid()
      modifies this, buf, tmp
      ensures Valid() && Fed() == [] && base == out == old(base) + Stream(c, old(Fed()))
    {
      if count != 0 {
        AppendGroup(c, base, out, done, buf[..count]);
        var short := EncodeShort(w, c, buf, tmp, count);
        out, count := out + short, 0;
      } else {
        assert done + buf[..0] == done;
      }
      base, done := out, [];
    }
  }

  /** The last group: padded, encoded in full and clipped. */
  method EncodeShort(w: Width, ghost c: Codec, buf: array<nat>, tmp: array<byte>, count: nat) returns (bytes: seq<byte>)
    requires IsCodec(w, c) && buf.Length == GroupSize(w) && tmp.Length == MaxSize(w)
    requires count <= buf.Length && c.AllFit(buf[..count])
    modifies buf, tmp
    ensures bytes == Group(c, old(buf[..count]))
  {
    ghost var vals := buf[..count];
    for i := count to GroupSize(w)
      invariant buf[..count] == vals && forall k | count <= k < i :: buf[k] == 0
    {
      buf[i] := 0;
    }
    PaddingFits(c, buf[..], count);
    var p := Encode(w, c, tmp, buf[..]);
    var size := PartialSize(w, c, buf[..], count);
    ShortGroup(c, buf[..], count);
    assert buf[..][..count] == vals;
    bytes := tmp[..size];
    assert bytes == tmp[..p][..size];
  }

  lemma PaddingFits(c: Codec, padded: seq<nat>, count: nat)
    requires c.Ok() && count <= |padded| && c.AllFit(padded[..count])
    requires forall k | count <= k < |padded| :: padded[k] == 0
    ensures c.AllFit(padded)
  {
    forall i | 0 <= i < |padded| ensures c.len(padded[i]) <= c.width {
      if i < count {
        assert padded[..count][i] == padded[i];
      }
    }
  }

  lemma AllFitAppend(c: Codec, vals: seq<nat>, x: nat)
    requires c.AllFit(vals) && c.len(x) <= c.width
    ensures c.AllFit(vals + [x])
  {
  }

  /** One more group at the end of the output. */
  lemma AppendGroup(c: Codec, base: seq<byte>, out: seq<byte>, done: seq<nat>, last: seq<nat>)
    requires 0 < |last| <= c.group && WholeGroups(c, done) && out == base + Stream(c, done)
    ensures out + Group(c, last) == base + Stream(c, done + last)
  {
    StreamAppend(c, done, last);
    LastStream(c, last);
    Assoc(base, Stream(c, done), Stream(c, last));
  }

  lemma LastStream(c: Codec, vals: seq<nat>)
    requires 0 < |vals| <= c.group
    ensures Stream(c, vals) == Group(c, vals)
  {
  }

  /** A group padded with zeros and clipped after count values is the short group. */
  lemma ShortGroup(c: Codec, padded: seq<nat>, count: nat)
    requires c.Ok() && c.AllFit(padded) && |padded| == c.group && count <= |padded|
    requires forall k | count <= k < |padded| :: padded[k] == 0
    ensures c.header + |Body(c, padded[..count])| <= |Group(c, padded)|
    ensures Group(c, padded)[..c.header + |Body(c, padded[..count])|] == Group(c, padded[..count])
  {
    assert Keys(c, padded) == Keys(c, padded[..count]);
    KeysAreValid(c, padded);
    BodyAppend(c, padded[..count], padded[count..]);
    assert padded == padded[..count] + padded[count..];
  }

  // ---------------------------------------------------------------------- decoder

  /** loadUnaligned and mask: the low k + 1 bytes. */
  function Masked(x: nat, k: nat): nat { FromLE(LE(x, k + 1)) }

  /** v is the i-th value of the group at p in memory. */
  ghost predicate LoadedAt(c: Codec, mem: seq<byte>, p: nat, keys: seq<nat>, i: nat, v: nat)
    requires i < |keys|
  {
    && p + Offset(c, keys, i + 1) <= |mem|
    && v == c.load(mem[p + Offset(c, keys, i)..p + Offset(c, keys, i + 1)])
  }

  lemma {:induction false} OffsetBound(w: Width, c: Codec, keys: seq<nat>, i: nat)
    requires c.header == HeaderSize(w) && c.width == Bytes(w) && i <= |keys| && forall k | 0 <= k < |keys| :: keys[k] < c.width
    ensures Offset(c, keys, i) <= HeaderSize(w) + Times(w, i)
  {
    if i > 0 {
      OffsetBound(w, c, keys, i - 1);
    }
  }

  /** One value: a load of the full width, masked. */
  method LoadValue(w: Width, mem: seq<byte>, q: nat, k: nat) returns (x: nat)
    requires q + Bytes(w) <= |mem| && k < Bytes(w)
    ensures x == FromLE(mem[q..q + k + 1])
  {
    x := FromLE(mem[q..q + Bytes(w)]);
    LowBytes(mem[q..q + Bytes(w)], k + 1);
    assert mem[q..q + Bytes(w)][..k + 1] == mem[q..q + k + 1];
    x := Masked(x, k);
  }

  /** decode: reads a whole group, whether or not all of it is there. */
  method DecodeGroup(w: Width, ghost c: Codec, mem: seq<byte>, p: nat, buf: array<nat>) returns (n: nat, keys: seq<nat>)
    requires IsCodec(w, c) && p + MaxSize(w) <= |mem| && buf.Length == c.group
    modifies buf
    ensures keys == c.unpack(mem[p..p + c.header]) && |keys| == c.group && n == p + Offset(c, keys, c.group) <= |mem|
    ensures GroupLoaded(c, mem, p, keys, buf[..])
  {
    assert At(mem[p..p + HeaderSize(w)]);
    keys := UnpackNum(w, FromLE(mem[p..p + HeaderSize(w)]), GroupSize(w));
    n := DecodeValues(w, c, mem, p, keys, buf);
  }

  ghost predicate GroupLoaded(c: Codec, mem: seq<byte>, p: nat, keys: seq<nat>, vals: seq<nat>) {
    |vals| == |keys| && forall i | 0 <= i < |vals| :: LoadedAt(c, mem, p, keys, i, vals[i])
  }

  method DecodeValues(w: Width, ghost c: Codec, mem: seq<byte>, p: nat, keys: seq<nat>, buf: array<nat>) returns (n: nat)
    requires c.header == HeaderSize(w) && c.width == Bytes(w) && forall k | 0 <= k < |keys| :: keys[k] < c.width
    requires LoadsLE(c)
    requires |keys| == buf.Length == GroupSize(w) && p + MaxSize(w) <= |mem|
    modifies buf
    ensures n == p + Offset(c, keys, |keys|) <= |mem| && GroupLoaded(c, mem, p, keys, buf[..])
  {
    n := p + HeaderSize(w);
    for i := 0 to |keys|
      invariant n == p + Offset(c, keys, i) <= |mem|
      invariant forall k | 0 <= k < i :: LoadedAt(c, mem, p, keys, k, buf[k])
    {
      OffsetBound(w, c, keys, i);
      var x := LoadValue(w, mem, n, keys[i]);
      LoadedNow(c, mem, p, keys, i, mem[n..n + keys[i] + 1]);
      buf[i] := x;
      n := n + keys[i] + 1;
    }
  }

  lemma LoadedNow(c: Codec, mem: seq<byte>, p: nat, keys: seq<nat>, i: nat, bytes: seq<byte>)
    requires LoadsLE(c) && i < |keys| && p + Offset(c, keys, i + 1) <= |mem|
    requires bytes == mem[p + Offset(c, keys, i)..p + Offset(c, keys, i + 1)]
    ensures LoadedAt(c, mem, p, keys, i, FromLE(bytes))
  {
    assert At(bytes);
  }

  /** partialCount. */
  method PartialCount(ghost c: Codec, header: nat, keys: seq<nat>, size: nat) returns (n: nat)
    requires header == c.header
    ensures n == FitCount(c, keys, size, 0)
  {
    var s := header;
    n := 0;
    while n < |keys|
      invariant n <= |keys| && s == Offset(c, keys, n) && FitCount(c, keys, size, 0) == FitCount(c, keys, size, n)
    {
      s := s + 1 + keys[n];
      if s > size {
        return;
      }
      n := n + 1;
    }
  }

  lemma FitsAll(c: Codec, keys: seq<nat>, size: nat)
    ensures FitCount(c, keys, size, 0) == |keys| <==> |keys| == 0 || Offset(c, keys, |keys|) <= size
  {
    var n := FitCount(c, keys, size, 0);
    if n < |keys| {
      OffsetMonotone(c, keys, n + 1, |keys|);
    }
  }

  /** The values of a group that lie wholly before `end` do not depend on what follows. */
  lemma {:induction false} LoadedValues(c: Codec, mem: seq<byte>, p: nat, end: nat, keys: seq<nat>, vals: seq<nat>, n: nat)
    requires p <= end <= |mem| && GroupLoaded(c, mem, p, keys, vals) && n <= |keys| && Offset(c, keys, n) <= end - p
    ensures Values(c, mem[p..end], keys, n) == vals[..n]
    decreases n
  {
    if n > 0 {
      LoadedValues(c, mem, p, end, keys, vals, n - 1);
      assert LoadedAt(c, mem, p, keys, n - 1, vals[n - 1]);
      var a, b := Offset(c, keys, n - 1), Offset(c, keys, n);
      Subslice(mem, p, end, a, b);
    }
  }

  lemma Subslice(mem: seq<byte>, p: nat, end: nat, a: nat, b: nat)
    requires a <= b <= end - p && end <= |mem|
    ensures mem[p..end][a..b] == mem[p + a..p + b]
  {
    var x, y := mem[p..end][a..b], mem[p + a..p + b];
    assert |x| == |y|;
    forall k | 0 <= k < |x| ensures x[k] == y[k] {
      assert x[k] == mem[p..end][a + k] == mem[p + a + k];
    }
  }

  /** Reading on at these bytes returns these values; quantified so that the definition of
      Decode is looked up only where Decode itself is mentioned. */
  ghost predicate Yields(c: Codec, bytes: seq<byte>, max: nat, todo: seq<nat>)
    requires c.Ok()
  {
    forall m: nat | m == max :: Decode(c, bytes, m) == todo
  }

  lemma NothingLeft(c: Codec, max: nat)
    requires c.Ok()
    ensures Yields(c, [], max, [])
  {
  }

  /** The group at p has been read into vals. */
  ghost predicate ReadGroup(c: Codec, mem: seq<byte>, p: nat, bytes: seq<byte>, keys: seq<nat>, vals: seq<nat>) {
    && c.Ok() && p + |bytes| <= |mem| && bytes == mem[p..p + |bytes|] && p + c.header <= |mem|
    && keys == c.unpack(mem[p..p + c.header]) && |keys| == c.group && GroupLoaded(c, mem, p, keys, vals)
  }

  lemma LoadedHeader(c: Codec, mem: seq<byte>, p: nat, bytes: seq<byte>, keys: seq<nat>, vals: seq<nat>, k: nat)
    requires ReadGroup(c, mem, p, bytes, keys, vals) && |bytes| >= c.header && k <= c.group && Offset(c, keys, k) <= |bytes|
    ensures keys == c.unpack(bytes[..c.header]) && Values(c, bytes, keys, k) == vals[..k]
  {
    assert bytes[..c.header] == mem[p..p + c.header];
    LoadedValues(c, mem, p, p + |bytes|, keys, vals, k);
  }

  /** The whole group is there and wanted. */
  lemma RefillFull(c: Codec, mem: seq<byte>, p: nat, bytes: seq<byte>, keys: seq<nat>, vals: seq<nat>, max: nat, todo: seq<nat>)
      returns (later: seq<nat>)
    requires ReadGroup(c, mem, p, bytes, keys, vals) && Yields(c, bytes, max, todo)
    requires Offset(c, keys, c.group) <= |bytes| && max >= c.group
    ensures todo == vals + later && Yields(c, bytes[Offset(c, keys, c.group)..], max - c.group, later)
  {
    FitsAll(c, keys, |bytes|);
    LoadedHeader(c, mem, p, bytes, keys, vals, c.group);
    assert vals[..|vals|] == vals;
    later := RestAfterGroup(c, bytes, keys, vals, max, todo);
  }

  lemma RestAfterGroup(c: Codec, bytes: seq<byte>, keys: seq<nat>, vals: seq<nat>, max: nat, todo: seq<nat>) returns (later: seq<nat>)
    requires c.Ok() && Yields(c, bytes, max, todo) && |keys| == c.group && max >= c.group
    requires |bytes| >= c.header && keys == c.unpack(bytes[..c.header]) && Offset(c, keys, c.group) <= |bytes|
    requires FitCount(c, keys, |bytes|, 0) == c.group && Values(c, bytes, keys, c.group) == vals
    ensures todo == vals + later && Yields(c, bytes[Offset(c, keys, c.group)..], max - c.group, later)
  {
    var rest := bytes[Offset(c, keys, c.group)..];
    later := Decode(c, rest, max - c.group);
    DecodeFull(c, bytes, keys, max);
    YieldsDecode(c, rest, max - c.group);
  }

  lemma YieldsDecode(c: Codec, bytes: seq<byte>, max: nat)
    requires c.Ok()
    ensures Yields(c, bytes, max, Decode(c, bytes, max))
  {
  }

  /** Some of the group is missing or not wanted. */
  lemma RefillPart(c: Codec, mem: seq<byte>, p: nat, bytes: seq<byte>, keys: seq<nat>, vals: seq<nat>, max: nat, todo: seq<nat>)
    requires ReadGroup(c, mem, p, bytes, keys, vals) && Yields(c, bytes, max, todo) && max > 0
    requires Offset(c, keys, c.group) > |bytes| || max < c.group
    ensures todo == vals[..Min(FitCount(c, keys, |bytes|, 0), max)]
  {
    if |bytes| >= c.header {
      RefillSome(c, mem, p, bytes, keys, vals, max, todo);
    } else {
      EndOfStream(c, bytes, max, todo);
    }
  }

  lemma RefillSome(c: Codec, mem: seq<byte>, p: nat, bytes: seq<byte>, keys: seq<nat>, vals: seq<nat>, max: nat, todo: seq<nat>)
    requires ReadGroup(c, mem, p, bytes, keys, vals) && Yields(c, bytes, max, todo) && max > 0 && |bytes| >= c.header
    requires Offset(c, keys, c.group) > |bytes| || max < c.group
    ensures todo == vals[..Min(FitCount(c, keys, |bytes|, 0), max)]
  {
    FitsAll(c, keys, |bytes|);
    var k := FitCount(c, keys, |bytes|, 0);
    OffsetMonotone(c, keys, Min(k, max), k);
    LoadedHeader(c, mem, p, bytes, keys, vals, Min(k, max));
    DecodePart(c, bytes, keys, max);
  }

  lemma EndOfStream(c: Codec, bytes: seq<byte>, max: nat, todo: seq<nat>)
    requires c.Ok() && Yields(c, bytes, max, todo) && (max == 0 || |bytes| < c.header)
    ensures todo == []
  {
    assert Decode(c, bytes, max) == [];
  }

  class Decoder {
    const w: Width
    ghost const c: Codec
    const data: seq<byte>
    const tmp: array<byte>
    const buf: array<nat>
    var inTmp: bool             // p, end and limit point into tmp instead of data
    var p: nat
    var end: nat
    var limit: nat
    var pos: nat
    var count: nat
    var remaining: nat
    ghost var bytes: seq<byte>  // the bytes between p and end
    ghost var todo: seq<nat>    // the values they hold

    ghost function View(): seq<byte>
      reads this, tmp
    {
      if inTmp then tmp[..] else data
    }

    ghost predicate Valid()
      reads this, tmp, buf
    {
      && IsCodec(w, c) && tmp.Length == 2 * MaxSize(w) && buf.Length == c.group
      && end <= limit == |View()| && (inTmp ==> end < MaxSize(w))
      && (remaining > 0 ==> p <= end && View()[p..end] == bytes)
      && pos <= count <= buf.Length && Yields(c, bytes, remaining, todo)
    }

    /** The values that next() has still to return. */
    ghost function Rest(): seq<nat>
      requires Valid()
      reads this, tmp, buf
    {
      buf[pos..count] + todo
    }

    constructor (width: Width, ghost codec: Codec, stream: seq<byte>, maxCount: nat)
      requires IsCodec(width, codec)
      ensures Valid() && w == width && c == codec && data == stream && fresh(tmp) && fresh(buf)
      ensures Yields(codec, stream, maxCount, Rest())
    {
      w, c, data, bytes, todo := width, codec, stream, stream, Decode(codec, stream, maxCount);
      tmp := new byte[2 * MaxSize(width)](_ => 0);
      buf := new nat[GroupSize(width)](_ => 0);
      inTmp, p, end, limit := false, 0, |stream|, |stream|;
      pos, count, remaining := 0, 0, maxCount;
    }

    /** The next value, or none at the end. */
    method Next() returns (r: Option<nat>)
      requires Valid()
      modifies this, tmp, buf
      ensures Valid()
      ensures old(Rest()) == [] ==> r == None && Rest() == []
      ensures old(Rest()) != [] ==> r == Some(old(Rest())[0]) && Rest() == old(Rest())[1..]
    {
      if pos == count {
        assert buf[pos..count] == [];
        if remaining == 0 || end - p == 0 {
          EndOfStream(c, bytes, remaining, todo);
          return None;
        }
        CopyIfShort();
        Refill();
        if count == 0 {
          return None;
        }
      }
      r := Some(buf[pos]);
      FirstOf(buf[pos..count], todo);
      assert buf[pos..count][1..] == buf[pos + 1..count];
      pos := pos + 1;
    }

    /** Near the end of the data a whole group is not readable: goes on in a copy. */
    method CopyIfShort()
      requires Valid() && remaining > 0
      modifies this`inTmp, this`p, this`end, this`limit, tmp
      ensures Valid() && limit - p >= MaxSize(w) && p <= end && end - p == old(end - p)
    {
      if limit - p < MaxSize(w) {
        var rem := end - p;
        for i := 0 to rem
          invariant !inTmp && p == old(p) && end == old(end) && p + rem == end <= |data|
          invariant tmp[..i] == data[p..p + i]
        {
          tmp[i] := data[p + i];
        }
        inTmp, p, end, limit := true, 0, rem, tmp.Length;
        assert View()[p..end] == tmp[..rem];
      }
    }

    /** Decodes the next group into the buffer. */
    method Refill()
      requires Valid() && pos == count && remaining > 0 && p < end && limit - p >= MaxSize(w)
      modifies this, buf
      ensures Valid() && pos == 0 && buf[..count] + todo == old(todo)
      ensures count == 0 ==> todo == []
    {
      var n, keys := DecodeGroup(w, c, if inTmp then tmp[..] else data, p, buf);
      pos := 0;
      assert ReadGroup(c, View(), p, bytes, keys, buf[..]);
      Consume(n, keys);
    }

    /** Decides how much of the group counts. */
    method Consume(n: nat, keys: seq<nat>)
      requires Valid() && pos == 0 && remaining > 0 && ReadGroup(c, View(), p, bytes, keys, buf[..])
      requires n == p + Offset(c, keys, c.group)
      modifies this`count, this`p, this`remaining, this`bytes, this`todo
      ensures Valid() && buf[..count] + todo == old(todo) && (count == 0 ==> todo == [])
    {
      if n <= end && remaining >= GroupSize(w) {
        ghost var later := RefillFull(c, View(), p, bytes, keys, buf[..], remaining, todo);
        TakeGroup(n, later);
      } else {
        RefillPart(c, View(), p, bytes, keys, buf[..], remaining, todo);
        FitsAll(c, keys, |bytes|);
        var max := GroupSize(w);
        if n > end {
          max := PartialCount(c, HeaderSize(w), keys, end - p);
        }
        Clip(max);
      }
    }

    /** A whole group. */
    method TakeGroup(n: nat, ghost later: seq<nat>)
      requires Valid() && pos == 0 && remaining >= GroupSize(w) && p <= n <= end && n - p <= |bytes|
      requires todo == buf[..] + later && Yields(c, bytes[n - p..], remaining - c.group, later)
      modifies this`count, this`p, this`remaining, this`bytes, this`todo
      ensures Valid() && buf[..count] + todo == old(todo) && count > 0
    {
      remaining, count, bytes, p, todo := remaining - GroupSize(w), GroupSize(w), bytes[n - p..], n, later;
      assert buf[..count] == buf[..];
    }

    /** The last values: all `max` that are complete, or as many as are wanted. */
    method Clip(max: nat)
      requires Valid() && max <= buf.Length && pos == 0 && remaining > 0
      requires todo == buf[..][..Min(max, remaining)]
      modifies this`count, this`p, this`remaining, this`bytes, this`todo
      ensures Valid() && buf[..count] == old(todo) && todo == []
    {
      if remaining >= max {
        count, remaining, p := max, remaining - max, end;
      } else {
        count := remaining;
        p := p + PartialSizeOf(count);
        remaining := 0;
      }
      bytes, todo := [], [];
      NothingLeft(c, remaining);
    }

    /** partialSize of the first values in the buffer; only rest() looks at it. */
    function PartialSizeOf(n: nat): nat
      requires n <= buf.Length
      reads buf
    {
      if n == 0 then HeaderSize(w) else PartialSizeOf(n - 1) + Length(buf[n - 1])
    }
  }

  lemma FirstOf(a: seq<nat>, b: seq<nat>)
    requires a != []
    ensures (a + b)[0] == a[0] && (a + b)[1..] == a[1..] + b
  {
  }

  // ------------------------------------------------------------------- round trip

  /** Feeds values to an encoder. */
  method Feed(e: Encoder, vals: seq<nat>)
    requires e.Valid() && forall i | 0 <= i < |vals| :: Fits(e.w, vals[i])
    modifies e, e.buf, e.tmp
    ensures e.Valid() && e.Fed() == old(e.Fed()) + vals && e.base == old(e.base)
    decreases |vals|
  {
    if vals != [] {
      ghost var before := e.Fed();
      e.Add(vals[0]);
      Feed(e, vals[1..]);
      assert (before + [vals[0]]) + vals[1..] == before + vals;
    }
  }

  method EncodeAll(w: Width, ghost c: Codec, vals: seq<nat>) returns (bytes: seq<byte>)
    requires IsCodec(w, c) && forall i | 0 <= i < |vals| :: Fits(w, vals[i])
    ensures bytes == Stream(c, vals)
  {
    var e := new Encoder(w, c);
    Feed(e, vals);
    assert [] + vals == vals;
    e.Finish();
    bytes := e.out;
  }

  /** Reads a decoder to its end. */
  method Drain(d: Decoder) returns (vals: seq<nat>)
    requires d.Valid()
    modifies d, d.tmp, d.buf
    ensures vals == old(d.Rest())
    decreases |d.Rest()|
  {
    ghost var rest := d.Rest();
    var r := d.Next();
    if r == None {
      return [];
    }
    vals := Drain(d);
    vals := [r.value] + vals;
    assert rest == [rest[0]] + rest[1..];
  }

  method DecodeAll(w: Width, ghost c: Codec, bytes: seq<byte>, maxCount: nat) returns (vals: seq<nat>)
    requires IsCodec(w, c)
    ensures Yields(c, bytes, maxCount, vals)
  {
    var d := new Decoder(w, c, bytes, maxCount);
    vals := Drain(d);
  }

  /** Encoding and decoding any list of values of the type gives it back. */
  method EncodeThenDecode(w: Width, vals: seq<nat>, maxCount: nat) returns (result: seq<nat>)
    requires forall i | 0 <= i < |vals| :: Fits(w, vals[i])
    ensures result == vals[..Min(maxCount, |vals|)]
  {
    ghost var c := CodecOf(w);
    CodecOfIsCodec(w);
    AllValuesFit(w, c, vals);
    var bytes := EncodeAll(w, c, vals);
    GroupVarintRoundTrip(w, c, vals, maxCount);
    result := DecodeAll(w, c, bytes, maxCount);
  }

  lemma AllValuesFit(w: Width, c: Codec, vals: seq<nat>)
    requires IsCodec(w, c) && forall i | 0 <= i < |vals| :: Fits(w, vals[i])
    ensures c.AllFit(vals)
  {
    forall i | 0 <= i < |vals| ensures c.len(vals[i]) <= c.width {
      assert At(vals[i]);
    }
  }
}
