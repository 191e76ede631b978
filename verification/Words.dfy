/** The 64-bit `size_t` counters of the two producer/worker queues, with their wrap-around. */
module Words {

  const WORD: nat := 0x1_0000_0000_0000_0000

  function FetchAdd(c: nat, n: nat): nat {
    (c + n) % WORD
  }

  function FetchSub(c: nat, n: nat): nat {
    (c - n) % WORD
  }

  /** Counting one more commutes with the wrap-around. */
  lemma CountOne(n: int)
    ensures FetchAdd(n % WORD, 1) == (n + 1) % WORD
  {
  }

  /** So does taking some off. */
  lemma CountOff(b: int, n: nat)
    ensures FetchSub(b % WORD, n) == (b - n) % WORD
  {
  }
}
