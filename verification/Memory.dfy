/** 64-bit words in memory, at the addresses that 8-byte loads and stores use. */
module Memory {
  import opened Numbers

  /** A register or memory word. Contents are moved, never computed with, except where `Wrap` says so. */
  type Word = int

  type Mem = map<int, Word>

  function Wrap(x: int): Word { x % WORD_LIMIT }

  function Load(mem: Mem, a: int): Word { if a in mem then mem[a] else 0 }

  /** Memory after storing `words` one after another from address p. */
  function StoreWords(mem: Mem, p: int, words: seq<Word>): Mem {
    if words == [] then mem
    else
      var n := |words| - 1;
      StoreWords(mem, p, words[..n])[p + 8 * n := words[n]]
  }

  function LoadWords(mem: Mem, p: int, n: nat): (words: seq<Word>)
    ensures |words| == n
  {
    seq(n, i => Load(mem, p + 8 * i))
  }

  /** One more store extends the block by one word. */
  lemma StoreNext(mem: Mem, p: int, words: seq<Word>, k: nat)
    requires k < |words|
    ensures StoreWords(mem, p, words[..k])[p + 8 * k := words[k]] == StoreWords(mem, p, words[..k + 1])
  {
    assert words[..k + 1][..k] == words[..k];
  }

  lemma StorePair(mem: Mem, p: int, words: seq<Word>, k: nat)
    requires k + 1 < |words|
    ensures StoreWords(mem, p, words[..k])[p + 8 * k := words[k]][p + 8 * (k + 1) := words[k + 1]] ==
            StoreWords(mem, p, words[..k + 2])
  {
    StoreNext(mem, p, words, k);
    StoreNext(mem, p, words, k + 1);
  }

  predicate Inside(a: int, p: int, size: int) { p <= a < p + size }

  predicate Apart(p: int, m: int, q: int, n: int) { p + m <= q || q + n <= p }

  /** Storing a block changes nothing outside it. */
  lemma {:induction false} LoadOutside(mem: Mem, p: int, words: seq<Word>, a: int)
    requires !Inside(a, p, 8 * |words|)
    ensures Load(StoreWords(mem, p, words), a) == Load(mem, a)
    decreases |words|
  {
    if words != [] {
      LoadOutside(mem, p, words[..|words| - 1], a);
    }
  }

  /** Reading a stored block back gives what was stored. */
  lemma {:induction false} LoadStored(mem: Mem, p: int, words: seq<Word>, i: nat)
    requires i < |words|
    ensures Load(StoreWords(mem, p, words), p + 8 * i) == words[i]
    decreases |words|
  {
    var n := |words| - 1;
    if i < n {
      LoadStored(mem, p, words[..n], i);
    }
  }

  lemma LoadBack(mem: Mem, p: int, words: seq<Word>)
    ensures LoadWords(StoreWords(mem, p, words), p, |words|) == words
  {
    forall i | 0 <= i < |words| ensures LoadWords(StoreWords(mem, p, words), p, |words|)[i] == words[i] {
      LoadStored(mem, p, words, i);
    }
  }

  /** Blocks elsewhere read the same after a store. */
  lemma LoadWordsOutside(mem: Mem, p: int, words: seq<Word>, q: int, n: nat)
    requires Apart(p, 8 * |words|, q, 8 * n)
    ensures LoadWords(StoreWords(mem, p, words), q, n) == LoadWords(mem, q, n)
  {
    forall i | 0 <= i < n ensures Load(StoreWords(mem, p, words), q + 8 * i) == Load(mem, q + 8 * i) {
      LoadOutside(mem, p, words, q + 8 * i);
    }
  }
}
