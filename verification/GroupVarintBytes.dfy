/**
 * The bytes of GroupVarint (folly/GroupVarint.h): little-endian stores, byte counts of
 * values and packed lengths, as a codec the streaming theory is proved for.
 */
module GroupVarintBytes {
  import opened GroupVarintStream
  import opened DivMod

  datatype Width = W32 | W64

  /** sizeof(T), kGroupSize, kHeaderSize and kMaxSize. */
  function Bytes(w: Width): nat { if w.W32? then 4 else 8 }
  function GroupSize(w: Width): nat { if w.W32? then 4 else 5 }
  function HeaderSize(w: Width): nat { if w.W32? then 1 else 2 }
  function MaxSize(w: Width): nat { if w.W32? then 17 else 42 }

  function Times(w: Width, h: nat): nat { if w.W32? then 4 * h else 8 * h }
  function Quot(w: Width, h: nat): nat { if w.W32? then h / 4 else h / 8 }
  function Rem(w: Width, h: nat): (k: nat)
    ensures k < Bytes(w)
  {
    if w.W32? then h % 4 else h % 8
  }

  // ------------------------------------------------------------- little endian

  /** The n low bytes of x, lowest first. */
  function LE(x: nat, n: nat): (s: seq<byte>)
    ensures |s| == n
  {
    if n == 0 then [] else [x % 256] + LE(x / 256, n - 1)
  }

  function FromLE(s: seq<byte>): nat {
    if s == [] then 0 else s[0] + 256 * FromLE(s[1..])
  }

  lemma ByteSplit(b: byte, y: nat)
    ensures (b + 256 * y) % 256 == b && (b + 256 * y) / 256 == y
  {
  }

  lemma {:induction false} LowBytes(s: seq<byte>, n: nat)
    requires n <= |s|
    ensures LE(FromLE(s), n) == s[..n]
    decreases n
  {
    if n > 0 {
      LowBytes(s[1..], n - 1);
      ByteSplit(s[0], FromLE(s[1..]));
      assert s[..n] == [s[0]] + s[1..][..n - 1];
    }
  }

  lemma {:induction false} LowPrefix(x: nat, m: nat, n: nat)
    requires m <= n
    ensures LE(x, n)[..m] == LE(x, m)
    decreases m
  {
    if m > 0 {
      LowPrefix(x / 256, m - 1, n - 1);
    }
  }

  // --------------------------------------------------------------------- lengths

  function BitLength(x: nat): (n: nat)
    requires x > 0
    ensures n > 0
  {
    if x == 1 then 1 else 1 + BitLength(x / 2)
  }

  /** x | 1 */
  function OrOne(x: nat): nat { if x % 2 == 0 then x + 1 else x }

  /** Count of leading zeros among the type's bits. */
  function Clz(w: Width, x: nat): int
    requires x > 0
  {
    8 * Bytes(w) - BitLength(x)
  }

  /** key(x): one less than the number of bytes stored for x. */
  function Key(w: Width, x: nat): int { Bytes(w) - 1 - Clz(w, OrOne(x)) / 8 }

  /** The bytes of x up to the highest that is not zero, one for zero. */
  function Length(x: nat): (n: nat)
    ensures n > 0
  {
    if x < 256 then 1 else 1 + Length(x / 256)
  }

  predicate Fits(w: Width, x: nat) { Length(x) <= Bytes(w) }

  lemma FourBits(x: nat)
    requires x > 0
    ensures x >= 16 ==> BitLength(x) == 4 + BitLength(x / 16)
    ensures x < 16 ==> BitLength(x) <= 4
  {
    var a := x / 2;
    var b := a / 2;
    var c := b / 2;
    assert x > 1 ==> BitLength(x) == 1 + BitLength(a);
    assert a > 1 ==> BitLength(a) == 1 + BitLength(b);
    assert b > 1 ==> BitLength(b) == 1 + BitLength(c);
    assert c > 1 ==> BitLength(c) == 1 + BitLength(c / 2) && c / 2 == x / 16;
  }

  lemma {:induction false} BitLengthBytes(x: nat)
    requires x > 0
    ensures 8 * (Length(x) - 1) < BitLength(x) <= 8 * Length(x)
    decreases x
  {
    FourBits(x);
    if x >= 16 {
      FourBits(x / 16);
    }
    if x >= 256 {
      assert x / 16 / 16 == x / 256;
      BitLengthBytes(x / 256);
    }
  }

  lemma OrOneLength(x: nat)
    ensures Length(OrOne(x)) == Length(x)
  {
    if x >= 256 {
      var q, r := x / 256, x % 256;
      assert x == 256 * q + r;
      assert x % 2 == 0 ==> r % 2 == 0;
      assert OrOne(x) / 256 == q;
    }
  }

  /** The clz formula yields the byte count. */
  lemma KeyIsLength(w: Width, x: nat)
    requires Fits(w, x)
    ensures Key(w, x) == Length(x) - 1 && 0 <= Key(w, x) < Bytes(w)
  {
    BitLengthBytes(OrOne(x));
    OrOneLength(x);
  }

  lemma {:induction false} RoundTripLE(x: nat, n: nat)
    requires Length(x) <= n
    ensures FromLE(LE(x, n)) == x
    decreases n
  {
    if x < 256 {
      ZeroLE(n - 1);
      assert LE(x, n) == [x] + LE(0, n - 1);
    } else {
      RoundTripLE(x / 256, n - 1);
    }
  }

  lemma {:induction false} ZeroLE(n: nat)
    ensures FromLE(LE(0, n)) == 0
  {
    if n > 0 {
      ZeroLE(n - 1);
    }
  }

  // --------------------------------------------------------------- packed lengths

  /** The header as a number: lengths less one, two or three bits each, first value lowest. */
  function PackNum(w: Width, keys: seq<nat>): nat {
    if keys == [] then 0 else keys[0] + Times(w, PackNum(w, keys[1..]))
  }

  /** b0key(h), b1key(h), ... */
  function UnpackNum(w: Width, h: nat, n: nat): (keys: seq<nat>)
    ensures |keys| == n && forall i | 0 <= i < n :: keys[i] < Bytes(w)
  {
    if n == 0 then [] else [Rem(w, h)] + UnpackNum(w, Quot(w, h), n - 1)
  }

  lemma LowestKey(w: Width, k: nat, h: nat)
    requires k < Bytes(w)
    ensures Rem(w, k + Times(w, h)) == k && Quot(w, k + Times(w, h)) == h
  {
  }

  lemma {:induction false} UnpackPack(w: Width, keys: seq<nat>)
    requires forall i | 0 <= i < |keys| :: keys[i] < Bytes(w)
    ensures UnpackNum(w, PackNum(w, keys), |keys|) == keys
    decreases |keys|
  {
    if keys != [] {
      UnpackPack(w, keys[1..]);
      LowestKey(w, keys[0], PackNum(w, keys[1..]));
    }
  }

  lemma {:induction false} PackBound(w: Width, keys: seq<nat>)
    requires |keys| <= GroupSize(w) && forall i | 0 <= i < |keys| :: keys[i] < Bytes(w)
    ensures PackNum(w, keys) < Range(w, |keys|)
    decreases |keys|
  {
    if keys != [] {
      PackBound(w, keys[1..]);
    }
  }

  function Range(w: Width, n: nat): nat { if n == 0 then 1 else Times(w, Range(w, n - 1)) }

  /** The header's bytes. */
  lemma HeaderRoundTrip(w: Width, keys: seq<nat>)
    requires |keys| == GroupSize(w) && forall i | 0 <= i < |keys| :: keys[i] < Bytes(w)
    ensures FromLE(LE(PackNum(w, keys), HeaderSize(w))) == PackNum(w, keys)
  {
    PackBound(w, keys);
    assert Range(w, 4) == Times(w, Times(w, Times(w, Times(w, 1))));
    assert w.W64? ==> Range(w, 5) == Times(w, Range(w, 4));
    RoundTripLE(PackNum(w, keys), HeaderSize(w));
  }

  // ---------------------------------------------------------------------- the codec

  /** The format of GroupVarint<uint32_t> or GroupVarint<uint64_t>. */
  function CodecOf(w: Width): Codec {
    Codec(GroupSize(w), HeaderSize(w), Bytes(w),
          Length, v => LE(v, Length(v)), FromLE,
          keys => LE(PackNum(w, keys), HeaderSize(w)),
          bytes => UnpackNum(w, FromLE(bytes), GroupSize(w)))
  }

  lemma StoresRoundTrip(w: Width, v: nat)
    ensures var c := CodecOf(w); c.len(v) > 0 && |c.store(v)| == c.len(v) && c.load(c.store(v)) == v
  {
    RoundTripLE(v, Length(v));
  }

  lemma PacksRoundTrip(w: Width, keys: seq<nat>)
    requires CodecOf(w).ValidKeys(keys)
    ensures var c := CodecOf(w); |c.pack(keys)| == c.header && c.unpack(c.pack(keys)) == keys
  {
    HeaderRoundTrip(w, keys);
    UnpackPack(w, keys);
  }

  lemma UnpacksValid(w: Width, bytes: seq<byte>)
    ensures CodecOf(w).ValidKeys(CodecOf(w).unpack(bytes))
  {
  }

  lemma CodecIsOk(w: Width, c: Codec)
    requires c == CodecOf(w)
    ensures c.Ok()
  {
    forall v: nat ensures c.len(v) > 0 && |c.store(v)| == c.len(v) && c.load(c.store(v)) == v {
      StoresRoundTrip(w, v);
    }
    forall keys | c.ValidKeys(keys) ensures |c.pack(keys)| == c.header && c.unpack(c.pack(keys)) == keys {
      PacksRoundTrip(w, keys);
    }
    forall bytes ensures c.ValidKeys(c.unpack(bytes)) {
      UnpacksValid(w, bytes);
    }
  }

  /** Marks the arguments at which the definitions below are wanted. */
  predicate At<T>(x: T) { true }

  ghost predicate StoresLE(c: Codec) {
    forall v: nat {:trigger At(v)} :: At(v) ==> c.len(v) == Length(v) && c.store(v) == LE(v, Length(v))
  }

  ghost predicate LoadsLE(c: Codec) {
    forall bytes: seq<byte> {:trigger At(bytes)} :: At(bytes) ==> c.load(bytes) == FromLE(bytes)
  }

  /** What the byte buffers need to know of the codec. */
  ghost predicate IsCodec(w: Width, c: Codec) {
    && c.group == GroupSize(w) && c.header == HeaderSize(w) && c.width == Bytes(w)
    && StoresLE(c) && LoadsLE(c)
    && (forall bytes: seq<byte> {:trigger At(bytes)} :: At(bytes) ==> c.unpack(bytes) == UnpackNum(w, FromLE(bytes), c.group))
    && (forall keys: seq<nat> {:trigger At(keys)} :: At(keys) ==> c.pack(keys) == LE(PackNum(w, keys), c.header))
    && c.Ok()
  }

  lemma CodecOfIsCodec(w: Width)
    ensures IsCodec(w, CodecOf(w))
  {
    CodecIsOk(w, CodecOf(w));
  }

  // ------------------------------------------------------------- the bytes of a group

  function Pow256(k: nat): (p: nat)
    ensures p > 0
  {
    if k == 0 then 1 else 256 * Pow256(k - 1)
  }

  /** Length is the least number of bytes, at least one, that the value fits in. */
  lemma {:induction false} LengthIsLeast(x: nat)
    ensures x < Pow256(Length(x)) && (Length(x) > 1 ==> Pow256(Length(x) - 1) <= x)
    decreases x
  {
    if x >= 256 {
      LengthIsLeast(x / 256);
      assert Pow256(Length(x)) == 256 * Pow256(Length(x / 256));
    } else {
      assert Pow256(1) == 256 * Pow256(0);
    }
  }

  /** Byte k of a little-endian store. */
  lemma {:induction false} LEByte(x: nat, n: nat, k: nat)
    requires k < n
    ensures LE(x, n)[k] == x / Pow256(k) % 256
    decreases k
  {
    if k > 0 {
      LEByte(x / 256, n - 1, k - 1);
      DivDiv(x, Pow256(k - 1));
    }
  }

  lemma DivDiv(x: nat, d: nat)
    requires d > 0
    ensures x / 256 / d == x / (256 * d)
  {
    var a, r := x / 256, x % 256;
    var q, t := a / d, a % d;
    assert x == 256 * a + r && a == d * q + t;
    assert 256 * (d * q + t) == (256 * d) * q + 256 * t;
    DivModUnique(x, 256 * d, q, 256 * t + r);
  }

  lemma BodyOf(c: Codec, vals: seq<nat>, i: nat)
    requires i < |vals|
    ensures Body(c, vals[i..]) == c.store(vals[i]) + Body(c, vals[i + 1..])
  {
    assert vals[i..][1..] == vals[i + 1..];
  }

  lemma PackOf(w: Width, keys: seq<nat>, i: nat)
    requires i < |keys|
    ensures PackNum(w, keys[i..]) == keys[i] + Times(w, PackNum(w, keys[i + 1..]))
  {
    assert keys[i..][1..] == keys[i + 1..];
  }

  lemma PackFour(keys: seq<nat>)
    requires |keys| == 4
    ensures PackNum(W32, keys) == keys[0] + 4 * keys[1] + 16 * keys[2] + 64 * keys[3]
  {
    assert keys[0..] == keys;
    PackOf(W32, keys, 0);
    PackOf(W32, keys, 1);
    PackOf(W32, keys, 2);
    PackOf(W32, keys, 3);
  }

  lemma PackFive(keys: seq<nat>)
    requires |keys| == 5
    ensures PackNum(W64, keys) == keys[0] + 8 * keys[1] + 64 * keys[2] + 512 * keys[3] + 4096 * keys[4]
  {
    assert keys[0..] == keys;
    PackOf(W64, keys, 0);
    PackOf(W64, keys, 1);
    PackOf(W64, keys, 2);
    PackOf(W64, keys, 3);
    PackOf(W64, keys, 4);
  }

  lemma BodyFour(c: Codec, vals: seq<nat>)
    requires |vals| == 4
    ensures Body(c, vals) == c.store(vals[0]) + (c.store(vals[1]) + (c.store(vals[2]) + c.store(vals[3])))
  {
    assert vals[0..] == vals;
    BodyOf(c, vals, 0);
    BodyOf(c, vals, 1);
    BodyOf(c, vals, 2);
    BodyOf(c, vals, 3);
  }

  lemma BodyFive(c: Codec, vals: seq<nat>)
    requires |vals| == 5
    ensures Body(c, vals) == c.store(vals[0]) + (c.store(vals[1]) + (c.store(vals[2]) + (c.store(vals[3]) + c.store(vals[4]))))
  {
    assert vals[0..] == vals;
    BodyOf(c, vals, 0);
    BodyOf(c, vals, 1);
    BodyOf(c, vals, 2);
    BodyOf(c, vals, 3);
    BodyOf(c, vals, 4);
  }

  lemma OneByte(x: nat)
    requires x < 256
    ensures LE(x, 1) == [x]
  {
    assert LE(x / 256, 0) == [];
  }

  lemma TwoBytes(x: nat)
    requires x < 65536
    ensures LE(x, 2) == [x % 256, x / 256]
  {
    OneByte(x / 256);
  }

  /** A group of 32-bit values: one byte of lengths less one, two bits each, the first value's
      in the lowest two; then the low bytes of each value, lowest first. */
  lemma GroupOfFour(c: Codec, vals: seq<nat>, n: seq<nat>, h: nat)
    requires c == CodecOf(W32) && |vals| == 4 && c.AllFit(vals) && n == Lengths(vals)
    requires h == (n[0] - 1) + 4 * (n[1] - 1) + 16 * (n[2] - 1) + 64 * (n[3] - 1)
    ensures h < 256 && Group(c, vals) == [h] + (LE(vals[0], n[0]) + (LE(vals[1], n[1]) + (LE(vals[2], n[2]) + LE(vals[3], n[3]))))
  {
    HeaderOfFour(c, vals, n, h);
    StoresIn(W32, c, vals);
    FourParts(c, vals, [h], n);
  }

  lemma FourParts(c: Codec, vals: seq<nat>, head: seq<byte>, n: seq<nat>)
    requires |vals| == |n| == c.group == 4 && c.pack(Keys(c, vals)) == head
    requires forall i | 0 <= i < 4 :: c.store(vals[i]) == LE(vals[i], n[i])
    ensures Group(c, vals) == head + (LE(vals[0], n[0]) + (LE(vals[1], n[1]) + (LE(vals[2], n[2]) + LE(vals[3], n[3]))))
  {
    BodyFour(c, vals);
  }

  lemma HeaderOfFour(c: Codec, vals: seq<nat>, n: seq<nat>, h: nat)
    requires c == CodecOf(W32) && |vals| == 4 && c.AllFit(vals) && n == Lengths(vals)
    requires h == (n[0] - 1) + 4 * (n[1] - 1) + 16 * (n[2] - 1) + 64 * (n[3] - 1)
    ensures h < 256 && c.pack(Keys(c, vals)) == [h]
  {
    LengthsFit(c, vals);
    var keys := Keys(c, vals);
    PackFour(keys);
    PacksIn(W32, c, keys);
    OneByte(PackNum(W32, keys));
  }

  /** A group of 64-bit values: two bytes, lowest first, of lengths less one, three bits each,
      the first value's in the lowest three; then the values. */
  lemma GroupOfFive(c: Codec, vals: seq<nat>, n: seq<nat>, h: nat)
    requires c == CodecOf(W64) && |vals| == 5 && c.AllFit(vals) && n == Lengths(vals)
    requires h == (n[0] - 1) + 8 * (n[1] - 1) + 64 * (n[2] - 1) + 512 * (n[3] - 1) + 4096 * (n[4] - 1)
    ensures h < 32768 && Group(c, vals) ==
            [h % 256, h / 256]
            + (LE(vals[0], n[0]) + (LE(vals[1], n[1]) + (LE(vals[2], n[2]) + (LE(vals[3], n[3]) + LE(vals[4], n[4])))))
  {
    HeaderOfFive(c, vals, n, h);
    StoresIn(W64, c, vals);
    FiveParts(c, vals, [h % 256, h / 256], n);
  }

  lemma FiveParts(c: Codec, vals: seq<nat>, head: seq<byte>, n: seq<nat>)
    requires |vals| == |n| == c.group == 5 && c.pack(Keys(c, vals)) == head
    requires forall i | 0 <= i < 5 :: c.store(vals[i]) == LE(vals[i], n[i])
    ensures Group(c, vals) ==
            head + (LE(vals[0], n[0]) + (LE(vals[1], n[1]) + (LE(vals[2], n[2]) + (LE(vals[3], n[3]) + LE(vals[4], n[4])))))
  {
    BodyFive(c, vals);
  }

  lemma HeaderOfFive(c: Codec, vals: seq<nat>, n: seq<nat>, h: nat)
    requires c == CodecOf(W64) && |vals| == 5 && c.AllFit(vals) && n == Lengths(vals)
    requires h == (n[0] - 1) + 8 * (n[1] - 1) + 64 * (n[2] - 1) + 512 * (n[3] - 1) + 4096 * (n[4] - 1)
    ensures h < 32768 && c.pack(Keys(c, vals)) == [h % 256, h / 256]
  {
    LengthsFit(c, vals);
    var keys := Keys(c, vals);
    PackFive(keys);
    PacksIn(W64, c, keys);
    TwoBytes(PackNum(W64, keys));
  }

  lemma PacksIn(w: Width, c: Codec, keys: seq<nat>)
    requires c == CodecOf(w)
    ensures c.pack(keys) == LE(PackNum(w, keys), HeaderSize(w))
  {
  }

  lemma StoresIn(w: Width, c: Codec, vals: seq<nat>)
    requires c == CodecOf(w)
    ensures forall i | 0 <= i < |vals| :: c.store(vals[i]) == LE(vals[i], Lengths(vals)[i])
  {
  }

  function Lengths(vals: seq<nat>): (n: seq<nat>)
    ensures |n| == |vals|
  {
    seq(|vals|, i requires 0 <= i < |vals| => Length(vals[i]))
  }

  lemma LengthsFit(c: Codec, vals: seq<nat>)
    requires c == CodecOf(W32) || c == CodecOf(W64)
    requires |vals| == c.group && c.AllFit(vals)
    ensures forall i | 0 <= i < |vals| :: 0 < Lengths(vals)[i] <= c.width && Keys(c, vals)[i] == Lengths(vals)[i] - 1
  {
  }

  /** Four values: 17, 258, 0 and 65536, stored in 1, 2, 1 and 3 bytes. */
  lemma GroupExample(c: Codec, vals: seq<nat>)
    requires c == CodecOf(W32) && vals == [17, 258, 0, 65536]
    ensures Group(c, vals) == [0x84, 17, 2, 1, 0, 0, 0, 1]
  {
    ExampleLengths();
    ExampleFits(c);
    GroupOfFour(c, vals, [1, 2, 1, 3], 0x84);
    ExampleBytes();
  }

  lemma ExampleFits(c: Codec)
    requires c == CodecOf(W32)
    ensures c.AllFit([17, 258, 0, 65536])
  {
    ExampleLengths();
    var vals := [17, 258, 0, 65536];
    assert forall i | 0 <= i < 4 :: Length(vals[i]) == Lengths(vals)[i];
  }

  lemma ExampleLengths()
    ensures Lengths([17, 258, 0, 65536]) == [1, 2, 1, 3]
  {
    assert Length(258) == 1 + Length(1);
    assert Length(65536) == 1 + Length(256) && Length(256) == 1 + Length(1);
  }

  lemma ExampleBytes()
    ensures [0x84] + (LE(17, 1) + (LE(258, 2) + (LE(0, 1) + LE(65536, 3)))) == [0x84, 17, 2, 1, 0, 0, 0, 1]
  {
    OneByte(17);
    OneByte(0);
    TwoBytes(258);
    TwoBytes(256);
    assert LE(65536, 3) == [0] + LE(256, 2);
  }

  /** For every list of values of the type, what the encoder writes decodes to that list. */
  lemma GroupVarintRoundTrip(w: Width, c: Codec, vals: seq<nat>, max: nat)
    requires c == CodecOf(w) && c.AllFit(vals)
    ensures c.Ok()
    ensures Decode(c, Stream(c, vals), max) == vals[..Min(max, |vals|)]
  {
    CodecIsOk(w, c);
    StreamRoundTrip(c, vals, max);
  }
}
