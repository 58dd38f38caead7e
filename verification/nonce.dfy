/**
 * The web `nonce`: `length` characters, each picked at random from
 * ('A'..'Z') + ('a'..'z') + ('0'..'9'). The random picks are a parameter.
 */
module Nonce {

  const AlphabetSize: nat := 62

  /** The length `generateNonce` uses when called without an argument. */
  const DefaultLength: nat := 16

  /** A position in the 62-character alphabet, as `random()` picks one. */
  type AlphabetIndex = i: int | 0 <= i < 62

  predicate IsAlphanumeric(c: char) {
    ('A' <= c <= 'Z') || ('a' <= c <= 'z') || ('0' <= c <= '9')
  }

  /** The alphabet in list order: upper case, then lower case, then digits. */
  function AlphabetChar(i: AlphabetIndex): char {
    if i < 26 then ('A' as int + i) as char
    else if i < 52 then ('a' as int + i - 26) as char
    else ('0' as int + i - 52) as char
  }

  function IndexOf(c: char): AlphabetIndex
    requires IsAlphanumeric(c)
  {
    if c <= '9' then c as int - '0' as int + 52
    else if c <= 'Z' then c as int - 'A' as int
    else c as int - 'a' as int + 26
  }

  /** The alphabet lists every letter and digit exactly once, and nothing else. */
  lemma AlphabetIsAlphanumerics()
    ensures forall i: AlphabetIndex :: IsAlphanumeric(AlphabetChar(i)) && IndexOf(AlphabetChar(i)) == i
    ensures forall c :: IsAlphanumeric(c) ==> AlphabetChar(IndexOf(c)) == c
  {
  }

  /** One nonce of `length` characters; `draw(k)` is the k-th random pick. */
  function GenerateNonce(length: int, draw: nat -> AlphabetIndex): (r: string)
    ensures |r| == if length < 0 then 0 else length
    ensures forall k :: 0 <= k < |r| ==> r[k] == AlphabetChar(draw(k))
    ensures forall k :: 0 <= k < |r| ==> IsAlphanumeric(r[k])
    decreases length
  {
    if length <= 0 then []
    else
      var c := AlphabetChar(draw(length - 1));
      AlphabetIsAlphanumerics();
      GenerateNonce(length - 1, draw) + [c]
  }

  /** Each pick is recoverable from the nonce: different picks give different nonces. */
  lemma NonceDeterminesPicks(length: int, draw: nat -> AlphabetIndex, k: nat)
    requires k < length
    ensures IndexOf(GenerateNonce(length, draw)[k]) == draw(k)
  {
    AlphabetIsAlphanumerics();
  }
}
