/** The 32-bit futex word of a TurnSequencer: 26 bits of the current turn above a
    6-bit saturating waiter delta.  All arithmetic is the code's uint32 arithmetic. */
module TurnWord {
  import opened DivMod

  const WORDS: nat := 0x1_0000_0000   // 2^32
  const TURNS: nat := 0x400_0000      // 2^26
  const MASK: nat := 63

  /** turn << kTurnShift, truncated to 32 bits. */
  function Sturn(turn: nat): nat { (turn * 64) % WORDS }

  function DecodeSturn(word: nat): nat { word - word % 64 }

  function DecodeDelta(word: nat): nat { word % 64 }

  function Encode(sturn: nat, delta: nat): nat {
    sturn + if delta < MASK then delta else MASK
  }

  /** (sturn - current_sturn) >> kTurnShift, with uint32 wrap-around. */
  function WaiterDelta(turn: nat, word: nat): nat {
    ((Sturn(turn) - DecodeSturn(word)) % WORDS) / 64
  }

  /** futexChannel: the bit of the wake mask a turn uses. */
  function Channel(turn: nat): nat { turn % 32 }

  /** The word shows this turn. */
  predicate Shows(word: nat, turn: nat) {
    word < WORDS && DecodeSturn(word) == Sturn(turn)
  }

  lemma SturnForm(turn: nat)
    ensures Sturn(turn) == (turn % TURNS) * 64
    ensures Sturn(turn) % 64 == 0 && Sturn(turn) <= WORDS - 64
  {
    var q, r := turn / TURNS, turn % TURNS;
    assert turn * 64 == q * WORDS + r * 64;
  }

  lemma EncodeShows(turn: nat, delta: nat)
    ensures Shows(Encode(Sturn(turn), delta), turn)
    ensures DecodeDelta(Encode(Sturn(turn), delta)) == if delta < MASK then delta else MASK
  {
    SturnForm(turn);
  }

  lemma ModStep(a: nat, d: nat)
    requires d < TURNS
    ensures (a + d) % TURNS == a % TURNS + d || (a + d) % TURNS == a % TURNS + d - TURNS
    ensures a % TURNS == (a + d) % TURNS ==> d == 0
  {
  }

  /** Within 2^26 turns the 32-bit comparison and subtraction are exact. */
  lemma NearTurnsAreExact(turn: nat, now: nat, word: nat)
    requires Shows(word, now) && now <= turn < now + TURNS
    ensures DecodeSturn(word) == Sturn(turn) <==> turn == now
    ensures WaiterDelta(turn, word) == turn - now
  {
    SturnForm(turn);
    SturnForm(now);
    var d := turn - now;
    ModStep(now, d);
    if turn % TURNS == now % TURNS + d {
      assert Sturn(turn) - DecodeSturn(word) == d * 64;
    } else {
      assert Sturn(turn) - DecodeSturn(word) == d * 64 - WORDS;
    }
  }

  /** The same word at two nearby turns shows the same turn. */
  lemma NearWordsShowSameTurn(a: nat, b: nat, word: nat)
    requires Shows(word, a) && Shows(word, b) && a <= b < a + TURNS
    ensures a == b
  {
    NearTurnsAreExact(b, a, word);
  }

  /** uint32 truncations at every stage of turn(ticket) * 2 (+ 1) << 6 lose nothing
      the word could show. */
  lemma TruncatedSturn(lap: nat, odd: nat)
    requires odd < 2
    ensures ((((lap % WORDS) * 2 + odd) % WORDS) * 64) % WORDS == Sturn(2 * lap + odd)
  {
    var t := (lap % WORDS) * 2 + odd;
    var y := (t % WORDS) * 64;
    var k := (2 * (lap / WORDS) + t / WORDS) * 64;
    assert (2 * lap + odd) * 64 == WORDS * (k + y / WORDS) + y % WORDS;
    DivModUnique((2 * lap + odd) * 64, WORDS, k + y / WORDS, y % WORDS);
  }
}
