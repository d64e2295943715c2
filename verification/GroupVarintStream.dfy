/**
 * Streaming group codecs (folly/GroupVarint.h): values travel in groups of a fixed number,
 * each stored in as many bytes as it needs, behind a header of packed lengths; the last
 * group may be short.  The theory holds for every codec that can read back what it stores.
 */
module GroupVarintStream {
  type byte = b: int | 0 <= b < 256

  /** How many values make a group, the size of its header, the most bytes of a value, and how
      lengths and values are written. */
  datatype Codec = Codec(
    group: nat, header: nat, width: nat,
    len: nat -> nat, store: nat -> seq<byte>, load: seq<byte> -> nat,
    pack: seq<nat> -> seq<byte>, unpack: seq<byte> -> seq<nat>)
  {
    predicate ValidKeys(keys: seq<nat>) {
      |keys| == group && forall i | 0 <= i < |keys| :: keys[i] < width
    }

    ghost predicate Ok() {
      && group > 0 && header > 0 && width > 0 && len(0) == 1
      && (forall v: nat :: len(v) > 0 && |store(v)| == len(v) && load(store(v)) == v)
      && (forall keys | ValidKeys(keys) :: |pack(keys)| == header && unpack(pack(keys)) == keys)
      && (forall bytes :: ValidKeys(unpack(bytes)))
    }

    ghost predicate AllFit(vals: seq<nat>) {
      forall i | 0 <= i < |vals| :: len(vals[i]) <= width
    }
  }

  // -------------------------------------------------------------------- encoding

  /** The lengths, less one, of up to a group of values; missing values count as zeros. */
  function Keys(c: Codec, vals: seq<nat>): (keys: seq<nat>)
    requires |vals| <= c.group
    ensures |keys| == c.group
  {
    seq(c.group, i requires 0 <= i < c.group => if i < |vals| && c.len(vals[i]) > 0 then c.len(vals[i]) - 1 else 0)
  }

  function Body(c: Codec, vals: seq<nat>): seq<byte> {
    if vals == [] then [] else c.store(vals[0]) + Body(c, vals[1..])
  }

  /** A group on the wire, possibly short. */
  function Group(c: Codec, vals: seq<nat>): seq<byte>
    requires |vals| <= c.group
  {
    c.pack(Keys(c, vals)) + Body(c, vals)
  }

  /** What the encoder writes for a list of values. */
  function Stream(c: Codec, vals: seq<nat>): seq<byte>
    requires c.group > 0
    decreases |vals|
  {
    if vals == [] then []
    else if |vals| <= c.group then Group(c, vals)
    else Group(c, vals[..c.group]) + Stream(c, vals[c.group..])
  }

  lemma Assoc(x: seq<byte>, y: seq<byte>, z: seq<byte>)
    ensures (x + y) + z == x + (y + z)
  {
  }

  lemma {:induction false} BodyAppend(c: Codec, a: seq<nat>, b: seq<nat>)
    ensures Body(c, a + b) == Body(c, a) + Body(c, b)
    decreases |a|
  {
    if a == [] {
      assert a + b == b;
    } else {
      BodyAppend(c, a[1..], b);
      assert (a + b)[1..] == a[1..] + b;
      Assoc(c.store(a[0]), Body(c, a[1..]), Body(c, b));
    }
  }

  lemma OneBody(c: Codec, x: nat)
    ensures Body(c, [x]) == c.store(x)
  {
    assert [x][1..] == [];
  }

  lemma FirstOfMany(c: Codec, first: seq<nat>, rest: seq<nat>)
    requires c.group > 0 && |first| == c.group
    ensures Stream(c, first + rest) == Group(c, first) + Stream(c, rest)
  {
    assert rest == [] ==> first + rest == first;
    assert (first + rest)[..|first|] == first && (first + rest)[|first|..] == rest;
  }

  /** a consists of whole groups. */
  ghost predicate WholeGroups(c: Codec, a: seq<nat>)
    requires c.group > 0
    decreases |a|
  {
    a == [] || (|a| >= c.group && WholeGroups(c, a[c.group..]))
  }

  ghost predicate Appends(c: Codec, a: seq<nat>, b: seq<nat>)
    requires c.group > 0
  {
    Stream(c, a + b) == Stream(c, a) + Stream(c, b)
  }

  /** Full groups in front do not disturb what follows. */
  lemma {:induction false} StreamAppend(c: Codec, a: seq<nat>, b: seq<nat>)
    requires c.group > 0 && WholeGroups(c, a)
    ensures Appends(c, a, b)
    decreases |a|
  {
    if a == [] {
      assert a + b == b;
    } else {
      StreamAppend(c, a[c.group..], b);
      AppendsStep(c, a[..c.group], a[c.group..], b);
      assert a[..c.group] + a[c.group..] == a;
    }
  }

  lemma AppendsStep(c: Codec, first: seq<nat>, rest: seq<nat>, b: seq<nat>)
    requires c.group > 0 && |first| == c.group && Appends(c, rest, b)
    ensures Appends(c, first + rest, b)
  {
    FirstOfMany(c, first, rest);
    FirstOfMany(c, first, rest + b);
    assert first + (rest + b) == (first + rest) + b;
    Assoc(Group(c, first), Stream(c, rest), Stream(c, b));
  }

  lemma {:induction false} WholeGroupsAppend(c: Codec, a: seq<nat>, last: seq<nat>)
    requires c.group > 0 && WholeGroups(c, a) && |last| == c.group
    ensures WholeGroups(c, a + last)
    decreases |a|
  {
    if a == [] {
      assert a + last == last && last[c.group..] == [];
    } else {
      WholeGroupsAppend(c, a[c.group..], last);
      assert (a + last)[c.group..] == a[c.group..] + last;
    }
  }

  // -------------------------------------------------------------------- decoding

  /** Where the i-th value of a group starts. */
  function Offset(c: Codec, keys: seq<nat>, i: nat): (n: nat)
    requires i <= |keys|
    ensures n >= c.header + i
  {
    if i == 0 then c.header else Offset(c, keys, i - 1) + keys[i - 1] + 1
  }

  lemma {:induction false} OffsetMonotone(c: Codec, keys: seq<nat>, i: nat, j: nat)
    requires i <= j <= |keys|
    ensures Offset(c, keys, i) + (j - i) <= Offset(c, keys, j)
    decreases j
  {
    if i < j {
      OffsetMonotone(c, keys, i, j - 1);
    }
  }

  /** How many values, counting from i, end within size bytes. */
  function FitCount(c: Codec, keys: seq<nat>, size: nat, i: nat): (n: nat)
    requires i <= |keys|
    ensures i <= n <= |keys|
    ensures n < |keys| ==> Offset(c, keys, n + 1) > size
    ensures i < n ==> Offset(c, keys, n) <= size
    decreases |keys| - i
  {
    if i == |keys| || Offset(c, keys, i + 1) > size then i else FitCount(c, keys, size, i + 1)
  }

  function ValueAt(c: Codec, bytes: seq<byte>, keys: seq<nat>, i: nat): nat
    requires i < |keys| && Offset(c, keys, i + 1) <= |bytes|
  {
    c.load(bytes[Offset(c, keys, i)..Offset(c, keys, i + 1)])
  }

  /** The first n values of a group. */
  function Values(c: Codec, bytes: seq<byte>, keys: seq<nat>, n: nat): (vals: seq<nat>)
    requires n <= |keys| && Offset(c, keys, n) <= |bytes|
    ensures |vals| == n
    decreases n
  {
    if n == 0 then [] else Values(c, bytes, keys, n - 1) + [ValueAt(c, bytes, keys, n - 1)]
  }

  /** What the decoder returns for any bytes, up to max values. */
  ghost function Decode(c: Codec, bytes: seq<byte>, max: nat): seq<nat>
    requires c.Ok()
    decreases |bytes|
  {
    if |bytes| < c.header || max == 0 then []
    else
      var keys := c.unpack(bytes[..c.header]);
      var n := FitCount(c, keys, |bytes|, 0);
      if n == c.group && max >= n then Values(c, bytes, keys, n) + Decode(c, bytes[Offset(c, keys, n)..], max - n)
      else if n < max then Values(c, bytes, keys, n)
      else (OffsetMonotone(c, keys, max, n); Values(c, bytes, keys, max))
  }

  // ------------------------------------------------------------------ round trip

  predicate StartsWith(bytes: seq<byte>, pre: seq<byte>) { pre <= bytes }

  lemma Middle(bytes: seq<byte>, pre: seq<byte>, mid: seq<byte>, post: seq<byte>)
    requires StartsWith(bytes, pre + mid + post)
    ensures |pre| + |mid| <= |bytes| && bytes[|pre|..|pre| + |mid|] == mid
  {
    forall k | 0 <= k < |mid| ensures bytes[|pre| + k] == mid[k] {
      assert bytes[|pre| + k] == (pre + mid + post)[|pre| + k];
    }
  }

  lemma KeysAreValid(c: Codec, vals: seq<nat>)
    requires c.Ok() && c.AllFit(vals) && |vals| <= c.group
    ensures c.ValidKeys(Keys(c, vals)) && |c.pack(Keys(c, vals))| == c.header && c.unpack(c.pack(Keys(c, vals))) == Keys(c, vals)
  {
  }

  lemma BodySplit(c: Codec, vals: seq<nat>, i: nat)
    requires i < |vals|
    ensures Body(c, vals) == Body(c, vals[..i]) + c.store(vals[i]) + Body(c, vals[i + 1..])
    ensures Body(c, vals[..i + 1]) == Body(c, vals[..i]) + c.store(vals[i])
  {
    OneBody(c, vals[i]);
    BodyAppend(c, vals[..i], [vals[i]]);
    BodyAppend(c, vals[..i + 1], vals[i + 1..]);
    assert vals[..i + 1] == vals[..i] + [vals[i]] && vals == vals[..i + 1] + vals[i + 1..];
  }

  lemma {:induction false} OffsetsDecode(c: Codec, vals: seq<nat>, i: nat)
    requires c.Ok() && |vals| <= c.group && i <= |vals|
    ensures Offset(c, Keys(c, vals), i) == c.header + |Body(c, vals[..i])|
    decreases i
  {
    if i > 0 {
      OffsetsDecode(c, vals, i - 1);
      BodySplit(c, vals, i - 1);
      assert c.len(vals[i - 1]) > 0;
    }
  }

  /** The i-th value's bytes inside a group. */
  lemma ValueDecodes(c: Codec, bytes: seq<byte>, vals: seq<nat>, i: nat)
    requires c.Ok() && c.AllFit(vals) && |vals| <= c.group && i < |vals| && StartsWith(bytes, Group(c, vals))
    ensures Offset(c, Keys(c, vals), i + 1) <= |bytes| && ValueAt(c, bytes, Keys(c, vals), i) == vals[i]
  {
    var pre, post := GroupSplit(c, vals, i);
    ValueInside(c, bytes, Keys(c, vals), i, vals[i], pre, post);
  }

  lemma GroupSplit(c: Codec, vals: seq<nat>, i: nat) returns (pre: seq<byte>, post: seq<byte>)
    requires c.Ok() && c.AllFit(vals) && |vals| <= c.group && i < |vals|
    ensures Group(c, vals) == pre + c.store(vals[i]) + post
    ensures |pre| == Offset(c, Keys(c, vals), i) && |pre| + |c.store(vals[i])| == Offset(c, Keys(c, vals), i + 1)
  {
    pre, post := c.pack(Keys(c, vals)) + Body(c, vals[..i]), Body(c, vals[i + 1..]);
    KeysAreValid(c, vals);
    OffsetsDecode(c, vals, i);
    OffsetsDecode(c, vals, i + 1);
    BodySplit(c, vals, i);
  }

  lemma ValueInside(c: Codec, bytes: seq<byte>, keys: seq<nat>, i: nat, x: nat, pre: seq<byte>, post: seq<byte>)
    requires c.load(c.store(x)) == x && i < |keys|
    requires |pre| == Offset(c, keys, i) && |pre| + |c.store(x)| == Offset(c, keys, i + 1)
    requires StartsWith(bytes, pre + c.store(x) + post)
    ensures Offset(c, keys, i + 1) <= |bytes| && ValueAt(c, bytes, keys, i) == x
  {
    Middle(bytes, pre, c.store(x), post);
  }

  lemma {:induction false} ValuesDecode(c: Codec, bytes: seq<byte>, vals: seq<nat>, n: nat)
    requires c.Ok() && c.AllFit(vals) && |vals| <= c.group && n <= |vals| && StartsWith(bytes, Group(c, vals))
    ensures Offset(c, Keys(c, vals), n) <= |bytes| && Values(c, bytes, Keys(c, vals), n) == vals[..n]
    decreases n
  {
    if n > 0 {
      ValuesDecode(c, bytes, vals, n - 1);
      ValueDecodes(c, bytes, vals, n - 1);
    } else {
      KeysAreValid(c, vals);
    }
  }

  lemma HeaderDecodes(c: Codec, bytes: seq<byte>, vals: seq<nat>)
    requires c.Ok() && c.AllFit(vals) && |vals| <= c.group && StartsWith(bytes, Group(c, vals))
    ensures |bytes| >= c.header && c.unpack(bytes[..c.header]) == Keys(c, vals)
  {
    KeysAreValid(c, vals);
    assert bytes[..c.header] == c.pack(Keys(c, vals));
  }

  /** All values of a group fit, and in the last group no padding does. */
  lemma CountDecodes(c: Codec, vals: seq<nat>, size: nat)
    requires c.Ok() && c.AllFit(vals) && 0 < |vals| <= c.group
    requires size == |Group(c, vals)| || (|vals| == c.group && size >= |Group(c, vals)|)
    ensures FitCount(c, Keys(c, vals), size, 0) == |vals|
    ensures Offset(c, Keys(c, vals), |vals|) == |Group(c, vals)|
  {
    var keys := Keys(c, vals);
    KeysAreValid(c, vals);
    OffsetsDecode(c, vals, |vals|);
    assert vals[..|vals|] == vals;
    var n := FitCount(c, keys, size, 0);
    if n < |vals| {
      OffsetMonotone(c, keys, n + 1, |vals|);
    } else if n > |vals| {
      OffsetMonotone(c, keys, |vals| + 1, n);
    }
  }

  function Min(a: nat, b: nat): nat { if a < b then a else b }

  /** Quantified so that the definition of Decode is looked up only where Decode is mentioned. */
  ghost predicate RoundTrips(c: Codec, vals: seq<nat>, max: nat)
    requires c.Ok()
  {
    forall m: nat | m == max :: Decode(c, Stream(c, vals), m) == vals[..Min(m, |vals|)]
  }

  /** Decoding what the encoder wrote gives back the values, or the first max of them. */
  lemma {:induction false} StreamRoundTrip(c: Codec, vals: seq<nat>, max: nat)
    requires c.Ok() && c.AllFit(vals)
    ensures RoundTrips(c, vals, max)
    decreases |vals|
  {
    if vals == [] || max == 0 {
    } else if |vals| <= c.group {
      LastGroup(c, vals, max);
    } else {
      if max >= c.group {
        StreamRoundTrip(c, vals[c.group..], max - c.group);
      }
      FirstGroup(c, vals[..c.group], vals[c.group..], max);
      assert vals[..c.group] + vals[c.group..] == vals;
    }
  }

  lemma LastGroup(c: Codec, vals: seq<nat>, max: nat)
    requires c.Ok() && c.AllFit(vals) && 0 < |vals| <= c.group && max > 0
    ensures RoundTrips(c, vals, max)
  {
    var bytes := Group(c, vals);
    HeaderDecodes(c, bytes, vals);
    CountDecodes(c, vals, |bytes|);
    ValuesDecode(c, bytes, vals, |vals|);
    ValuesDecode(c, bytes, vals, Min(max, |vals|));
    assert vals[..|vals|] == vals && bytes[|bytes|..] == [];
  }

  /** A full group in front of more bytes. */
  lemma FirstGroup(c: Codec, first: seq<nat>, rest: seq<nat>, max: nat)
    requires c.Ok() && c.AllFit(first) && |first| == c.group && max > 0
    requires max >= |first| ==> RoundTrips(c, rest, max - |first|)
    ensures RoundTrips(c, first + rest, max)
  {
    FirstOfMany(c, first, rest);
    FirstGroupDecodes(c, first, Stream(c, rest), max);
    TakeAppend(first, rest, max);
  }

  lemma FirstGroupDecodes(c: Codec, first: seq<nat>, more: seq<byte>, max: nat)
    requires c.Ok() && c.AllFit(first) && |first| == c.group && max > 0
    ensures Decode(c, Group(c, first) + more, max) ==
            if max >= |first| then first + Decode(c, more, max - |first|) else first[..max]
  {
    var bytes := Group(c, first) + more;
    HeaderDecodes(c, bytes, first);
    CountDecodes(c, first, |bytes|);
    ValuesDecode(c, bytes, first, Min(max, |first|));
    DecodeFull(c, bytes, Keys(c, first), max);
    assert bytes[|Group(c, first)|..] == more;
    assert first[..|first|] == first;
  }

  /** The equation of Decode for a full group. */
  lemma DecodeFull(c: Codec, bytes: seq<byte>, keys: seq<nat>, max: nat)
    requires c.Ok() && |bytes| >= c.header && keys == c.unpack(bytes[..c.header]) && max > 0 && |keys| == c.group
    requires FitCount(c, keys, |bytes|, 0) == c.group && Offset(c, keys, Min(max, c.group)) <= |bytes|
    ensures Offset(c, keys, c.group) <= |bytes|
    ensures Decode(c, bytes, max) ==
            if max >= c.group then Values(c, bytes, keys, c.group) + Decode(c, bytes[Offset(c, keys, c.group)..], max - c.group)
            else Values(c, bytes, keys, max)
  {
  }

  /** And for a short one, or one of which not everything is wanted. */
  lemma DecodePart(c: Codec, bytes: seq<byte>, keys: seq<nat>, max: nat)
    requires c.Ok() && |bytes| >= c.header && keys == c.unpack(bytes[..c.header]) && max > 0 && |keys| == c.group
    requires var n := FitCount(c, keys, |bytes|, 0); n < c.group || max < n
    ensures var k := Min(FitCount(c, keys, |bytes|, 0), max);
            Offset(c, keys, k) <= |bytes| && Decode(c, bytes, max) == Values(c, bytes, keys, k)
  {
    var n := FitCount(c, keys, |bytes|, 0);
    OffsetMonotone(c, keys, Min(n, max), n);
  }

  lemma TakeAppend(a: seq<nat>, b: seq<nat>, m: nat)
    ensures m >= |a| ==> (a + b)[..Min(m, |a| + |b|)] == a + b[..Min(m - |a|, |b|)]
    ensures m < |a| ==> (a + b)[..Min(m, |a| + |b|)] == a[..m]
  {
    if m < |a| {
      assert (a + b)[..m] == a[..m];
    } else {
      var k := Min(m - |a|, |b|);
      assert (a + b)[..|a| + k] == a + b[..k];
    }
  }
}
