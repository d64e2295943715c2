/**
 * basic_fbstring::find (folly/FBString.h): the needle search that compares last characters
 * first and skips by a distance it computes when it first needs it.  Positions are size_t:
 * 64-bit, with NPOS the largest.
 */
module FBStringFind {
  const SIZE_T: nat := 0x1_0000_0000_0000_0000
  const NPOS: nat := SIZE_T - 1

  predicate MatchAt(hay: string, needle: string, i: nat) {
    i + |needle| <= |hay| && hay[i..i + |needle|] == needle
  }

  /** No match starts in [from, to). */
  ghost predicate NoMatch(hay: string, needle: string, from: nat, to: nat) {
    forall p: nat | from <= p < to :: !MatchAt(hay, needle, p)
  }

  /** Distance from the needle's last character back to its previous occurrence. */
  predicate IsSkip(needle: string, skip: nat)
    requires needle != []
  {
    && 1 <= skip <= |needle|
    && (forall q | |needle| - skip <= q < |needle| - 1 :: needle[q] != needle[|needle| - 1])
    && (skip < |needle| ==> needle[|needle| - 1 - skip] == needle[|needle| - 1])
  }

  /** Where the last character matched but the needle did not, no match starts before the skip. */
  lemma SkipIsSafe(hay: string, needle: string, i: nat, skip: nat)
    requires needle != [] && IsSkip(needle, skip) && i + |needle| <= |hay|
    requires hay[i + |needle| - 1] == needle[|needle| - 1] && !MatchAt(hay, needle, i)
    ensures NoMatch(hay, needle, i, i + skip)
  {
    var n := |needle|;
    forall p: nat | i <= p < i + skip ensures !MatchAt(hay, needle, p) {
      if p > i && p + n <= |hay| {
        assert needle[n - 1 - (p - i)] != needle[n - 1];
        assert hay[p..p + n][n - 1 - (p - i)] == hay[i + n - 1];
      }
    }
  }

  lemma LastDiffers(hay: string, needle: string, i: nat)
    requires needle != [] && i + |needle| <= |hay| && hay[i + |needle| - 1] != needle[|needle| - 1]
    ensures !MatchAt(hay, needle, i)
  {
    assert hay[i..i + |needle|][|needle| - 1] == hay[i + |needle| - 1];
  }

  /** Computes the skip. */
  method ComputeSkip(needle: string) returns (skip: nat)
    requires needle != []
    ensures IsSkip(needle, skip)
  {
    var last := |needle| - 1;
    skip := 1;
    while skip <= last && needle[last - skip] != needle[last]
      invariant 1 <= skip <= |needle|
      invariant forall q | |needle| - skip <= q < last :: needle[q] != needle[last]
    {
      skip := skip + 1;
    }
  }

  /** What a search promises: the least match at or after pos, or NPOS if there is none. */
  ghost predicate IsLeast(hay: string, needle: string, pos: nat, r: nat) {
    if r == NPOS then forall p: nat | p >= pos :: !MatchAt(hay, needle, p)
    else r >= pos && MatchAt(hay, needle, r) && NoMatch(hay, needle, pos, r)
  }

  /** The promise is kept except for an empty needle past the end of the string, which is
      found at pos all the same. */
  method Find(hay: string, needle: string, pos: nat) returns (r: nat)
    requires |hay| < NPOS && |needle| < SIZE_T && pos < SIZE_T
    ensures needle == [] ==> r == pos
    ensures IsLeast(hay, needle, pos, r) <==> needle != [] || pos <= |hay| || pos == NPOS
  {
    if |needle| == 0 {
      return pos;
    }
    var sum := (|needle| + pos) % SIZE_T;
    if sum > |hay| || sum < pos {
      assert |needle| + pos > |hay|;
      return NPOS;
    }
    assert |needle| + pos == sum;
    var last, skip, i, iEnd := |needle| - 1, 0, pos, |hay| - (|needle| - 1);
    while i < iEnd
      invariant pos <= i && NoMatch(hay, needle, pos, i)
      invariant skip == 0 || IsSkip(needle, skip)
    {
      while hay[i + last] != needle[last]
        invariant pos <= i < iEnd && NoMatch(hay, needle, pos, i)
        decreases iEnd - i
      {
        LastDiffers(hay, needle, i);
        i := i + 1;
        if i == iEnd {
          assert NoMatch(hay, needle, pos, i);
          return NPOS;
        }
      }
      var j := FirstMismatch(hay, needle, i);
      if j == |needle| {
        return i;
      }
      if skip == 0 {
        skip := ComputeSkip(needle);
      }
      SkipIsSafe(hay, needle, i, skip);
      i := i + skip;
    }
    return NPOS;
  }

  /** The comparison of the whole needle: the first index where it differs, or its length. */
  method FirstMismatch(hay: string, needle: string, i: nat) returns (j: nat)
    requires i + |needle| <= |hay|
    ensures j <= |needle| && (j == |needle| <==> MatchAt(hay, needle, i))
    ensures j < |needle| ==> hay[i + j] != needle[j]
  {
    j := 0;
    while j < |needle|
      invariant j <= |needle| && hay[i..i + j] == needle[..j]
    {
      if hay[i + j] != needle[j] {
        assert hay[i..i + |needle|][j] == hay[i + j];
        return;
      }
      j := j + 1;
    }
  }
}
