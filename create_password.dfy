/** createPassword (components/MainCompo.tsx, lines 59-66): a loop that, once per
    requested character, scales a draw of Math.random() to an index into the
    alphabet and appends characters.charAt(index) to the result.

    Math.random() is not modelled as a source of randomness: the caller passes
    the draws it returns, in order, as exact reals in [0, 1). */
module Sampling {

  /** Every draw is a value Math.random() can return. */
  predicate IsRandomStream(random: seq<real>)
  {
    forall i :: 0 <= i < |random| ==> 0.0 <= random[i] < 1.0
  }

  /** Math.floor(random * length). */
  function Index(random: real, length: nat): (k: int)
    requires 0.0 <= random < 1.0
    ensures length == 0 ==> k == 0
    ensures length > 0 ==> 0 <= k < length
  {
    ScaledDrawBelow(random, length);
    (random * length as real).Floor
  }

  /** A draw in [0, 1) scaled by length lands in [0, length). */
  lemma ScaledDrawBelow(random: real, length: nat)
    requires 0.0 <= random < 1.0
    ensures 0.0 <= random * length as real
    ensures length > 0 ==> random * length as real < length as real
  {
    if length > 0 {
      assert (1.0 - random) * length as real > 0.0;
    }
  }

  /** String.prototype.charAt: the one-character string at k, or "" when k is
      outside the string. */
  function CharAt(s: string, k: int): string
  {
    if 0 <= k < |s| then [s[k]] else ""
  }

  /** The string createPassword builds from the given draws: one charAt per draw,
      appended in order. */
  function Draws(characters: string, random: seq<real>): string
    requires IsRandomStream(random)
  {
    if random == [] then ""
    else Draws(characters, random[..|random| - 1])
         + CharAt(characters, Index(random[|random| - 1], |characters|))
  }

  /** One character per draw, except from an empty alphabet, where every charAt
      yields "". */
  lemma {:induction false} DrawsLength(characters: string, random: seq<real>)
    requires IsRandomStream(random)
    ensures |Draws(characters, random)| == if characters == [] then 0 else |random|
  {
    if random != [] {
      DrawsLength(characters, random[..|random| - 1]);
    }
  }

  /** Character k of the result is the alphabet character the k-th draw selects. */
  lemma {:induction false} DrawsAt(characters: string, random: seq<real>, k: nat)
    requires IsRandomStream(random)
    requires characters != [] && k < |random|
    ensures |Draws(characters, random)| == |random|
    ensures Draws(characters, random)[k] == characters[Index(random[k], |characters|)]
  {
    DrawsLength(characters, random);
    if k < |random| - 1 {
      DrawsAt(characters, random[..|random| - 1], k);
    }
  }

  /** Every character of the result is a character of the alphabet. */
  lemma DrawsWithinAlphabet(characters: string, random: seq<real>)
    requires IsRandomStream(random)
    ensures forall c :: c in Draws(characters, random) ==> c in characters
  {
    DrawsLength(characters, random);
    forall c | c in Draws(characters, random)
      ensures c in characters
    {
      var k :| 0 <= k < |Draws(characters, random)| && Draws(characters, random)[k] == c;
      DrawsAt(characters, random, k);
    }
  }

  function Max(a: int, b: int): int { if a < b then b else a }

  /** The loop of createPassword: passwordLength passes (none when
      passwordLength <= 0), each consuming the next draw. */
  method CreatePassword(characters: string, passwordLength: int, random: seq<real>)
    returns (result: string)
    requires IsRandomStream(random) && passwordLength <= |random|
    ensures result == Draws(characters, random[..Max(passwordLength, 0)])
    ensures |result| == if characters == [] then 0 else Max(passwordLength, 0)
    ensures forall c :: c in result ==> c in characters
  {
    result := "";
    var i := 0;
    while i < passwordLength
      invariant 0 <= i <= Max(passwordLength, 0)
      invariant result == Draws(characters, random[..i])
    {
      var charactersIndex := Index(random[i], |characters|);
      assert random[..i + 1][..i] == random[..i];
      result := result + CharAt(characters, charactersIndex);
      i := i + 1;
    }
    DrawsLength(characters, random[..i]);
    DrawsWithinAlphabet(characters, random[..i]);
  }
}
