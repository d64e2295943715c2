/** LifoSemHead's 64-bit word.  Bits 0-31 hold the data, bit 32 says the data is a
    node index, bit 33 is the shutdown bit and bits 34-63 the sequence number.  The
    setters below are the code's mask-and-add expressions on uint64 values, a mask
    of high bits being written as the value minus its low part; the lemmas show that
    each acts on the packed word as its namesake acts on the unpacked head. */
module LifoSemHead {
  import opened DivMod
  import opened LifoSem

  const BIT32: nat := 0x1_0000_0000
  const BIT33: nat := 0x2_0000_0000
  const BIT34: nat := 0x4_0000_0000
  const WORD: nat := 0x1_0000_0000_0000_0000
  const SEQS: nat := 0x4000_0000

  function Pack(h: Head): nat {
    h.data + (if h.isNode then BIT32 else 0) + (if h.shutdown then BIT33 else 0) + (h.seqno % SEQS) * BIT34
  }

  predicate Packable(h: Head) { h.data < BIT32 }

  predicate IsNodeBit(bits: nat) { bits / BIT32 % 2 == 1 }
  predicate ShutdownBit(bits: nat) { bits / BIT33 % 2 == 1 }

  function PopBits(bits: nat, next: nat): nat {
    if next == 0
    // sequence and shutdown bits are kept, the sequence goes up
    then (bits - bits % BIT33 + BIT34) % WORD
    // so is the node bit, and the data is replaced
    else (bits - bits % BIT32 + BIT34 + next) % WORD
  }

  /** Only the sequence is kept. */
  function PushBits(bits: nat, idx: nat): nat { bits - bits % BIT34 + BIT32 + idx }

  /** An increment that reaches the node bit is pulled back to the largest value. */
  function IncrBits(bits: nat, delta: nat): nat {
    var rv := (bits + BIT34 + delta) % WORD;
    if IsNodeBit(rv) then rv - rv % BIT33 + (BIT32 - 1) else rv
  }

  function DecrBits(bits: nat, delta: nat): int { (bits + BIT34 - delta) % WORD }

  function ShutdownBits(bits: nat): nat { if ShutdownBit(bits) then bits else bits + BIT33 }

  lemma NextSeq(seqno: nat)
    ensures (seqno + 1) % SEQS == if seqno % SEQS == SEQS - 1 then 0 else seqno % SEQS + 1
  {
  }

  /** Adding whole sequence numbers leaves everything below bit 34 alone. */
  lemma LowPart(low: nat, seqno: nat)
    requires low < BIT34
    ensures (low + seqno * BIT34) / BIT32 % 2 == low / BIT32 % 2
    ensures (low + seqno * BIT34) % BIT33 == low % BIT33
    ensures (low + seqno * BIT34) % BIT32 == low % BIT32
    ensures (low + seqno * BIT34) / BIT33 % 2 == low / BIT33 % 2
    ensures (low + seqno * BIT34) / BIT34 == seqno
  {
    var n := low + seqno * BIT34;
    DivModUnique(n, BIT32, low / BIT32 + 4 * seqno, low % BIT32);
    DivModUnique(n, BIT33, low / BIT33 + 2 * seqno, low % BIT33);
    DivModUnique(low / BIT32 + 4 * seqno, 2, low / BIT32 / 2 + 2 * seqno, low / BIT32 % 2);
    DivModUnique(low / BIT33 + 2 * seqno, 2, low / BIT33 / 2 + seqno, low / BIT33 % 2);
    DivModUnique(n, BIT34, seqno, low);
  }

  function LowBits(h: Head): nat {
    h.data + (if h.isNode then BIT32 else 0) + (if h.shutdown then BIT33 else 0)
  }

  /** The word determines the head, up to the wrap of the sequence number. */
  lemma PackInjective(a: Head, b: Head)
    requires Packable(a) && Packable(b) && Pack(a) == Pack(b)
    ensures a.data == b.data && a.isNode == b.isNode && a.shutdown == b.shutdown && a.seqno % SEQS == b.seqno % SEQS
  {
    LowPart(LowBits(a), a.seqno % SEQS);
    LowPart(LowBits(b), b.seqno % SEQS);
    assert LowBits(a) == LowBits(b);
  }

  lemma PackFlags(h: Head)
    requires Packable(h)
    ensures IsNodeBit(Pack(h)) == h.isNode && ShutdownBit(Pack(h)) == h.shutdown
    ensures Pack(h) % BIT32 == h.data && Pack(h) < WORD
  {
    LowPart(LowBits(h), h.seqno % SEQS);
  }

  lemma PopPacks(h: Head, next: nat)
    requires Packable(h) && h.isNode && next < BIT32
    ensures PopBits(Pack(h), next) == Pack(h.WithPop(next))
  {
    NodeLow(h);
    var after := LowBits(h.WithPop(next));
    assert PopBits(Pack(h), next) == (after + (h.seqno % SEQS) * BIT34 + BIT34) % WORD;
    WrapSeq(after, h.seqno);
  }

  /** The parts of the word that a pop replaces. */
  lemma NodeLow(h: Head)
    requires Packable(h) && h.isNode
    ensures Pack(h) % BIT33 == h.data + BIT32 && Pack(h) % BIT32 == h.data
  {
    var low, top := LowBits(h), if h.shutdown then 1 else 0;
    LowPart(low, h.seqno % SEQS);
    DivModUnique(low, BIT33, top, h.data + BIT32);
    DivModUnique(low, BIT32, 2 * top + 1, h.data);
  }

  /** Adding SeqIncr wraps exactly where the sequence number does. */
  lemma WrapSeq(low: nat, seqno: nat)
    requires low < BIT34
    ensures (low + (seqno % SEQS) * BIT34 + BIT34) % WORD == low + ((seqno + 1) % SEQS) * BIT34
  {
    NextSeq(seqno);
  }

  lemma PushPacks(h: Head, idx: nat)
    requires Packable(h) && !h.shutdown && 0 < idx < BIT32 && (h.isNode || h.data == 0)
    ensures PushBits(Pack(h), idx) == Pack(h.WithPush(idx))
  {
    DivModUnique(Pack(h), BIT34, h.seqno % SEQS, LowBits(h));
  }

  /** The sum of two values shows in the node bit whether it is too large. */
  lemma SumBits(data: nat, shutdown: bool, delta: nat)
    requires data < BIT32 && delta < BIT32
    ensures var low := data + delta + if shutdown then BIT33 else 0;
            low < BIT34 && (IsNodeBit(low) <==> data + delta >= BIT32) && low % BIT33 == data + delta
  {
    var low, top := data + delta + if shutdown then BIT33 else 0, if shutdown then 1 else 0;
    DivModUnique(low, BIT33, top, data + delta);
    var carry := if data + delta >= BIT32 then 1 else 0;
    DivModUnique(low, BIT32, 2 * top + carry, data + delta - carry * BIT32);
  }

  lemma IncrPacks(h: Head, delta: nat)
    requires Packable(h) && !h.isNode && delta < BIT32
    ensures IncrBits(Pack(h), delta) == Pack(h.WithValueIncr(delta))
  {
    var low, seqno := LowBits(h) + delta, (h.seqno + 1) % SEQS;
    SumBits(h.data, h.shutdown, delta);
    WrapSeq(low, h.seqno);
    LowPart(low, seqno);
    var rv := low + seqno * BIT34;
    assert (Pack(h) + BIT34 + delta) % WORD == rv;
    assert IsNodeBit(rv) <==> h.data + delta >= BIT32;
    assert rv % BIT33 == h.data + delta;
  }

  lemma DecrPacks(h: Head, delta: nat)
    requires Packable(h) && !h.isNode && 0 < delta <= h.data
    ensures DecrBits(Pack(h), delta) == Pack(h.WithValueDecr(delta))
  {
    NextSeq(h.seqno);
  }

  lemma ShutdownPacks(h: Head)
    requires Packable(h)
    ensures ShutdownBits(Pack(h)) == Pack(h.WithShutdown())
  {
    PackFlags(h);
  }
}
