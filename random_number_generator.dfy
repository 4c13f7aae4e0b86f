/** Seeded generation of `u128` pseudo-random numbers: a fixed table for the
    reserved seed 123 (as long as the table is long enough), and otherwise
    the first draws of a Mersenne-Twister (MT19937-64) generator seeded with
    the seed. The generator itself is a parameter: a deterministic map from a
    seed to the infinite sequence of its draws. */
module RandomNumberGenerator {

  type u8 = x: int | 0 <= x < 0x100
  type u32 = x: int | 0 <= x < 0x1_0000_0000
  type u64 = x: int | 0 <= x < 0x1_0000_0000_0000_0000
  type u128 = x: int | 0 <= x < 0x1_0000_0000_0000_0000_0000_0000_0000_0000

  /** For each 64-bit seed, the `u128` values that successive draws from a
      freshly seeded MT19937-64 generator return. */
  type Mt64Stream = u64 -> nat -> u128

  const RESERVED_SEED: u32 := 123

  const PREDEFINED_U128_NUMBERS: seq<u128> := [
    261662301160200998434711212977610535782,
    285327960644938307249498422906269531911,
    129009325524088458058577578630147536946,
    115967627312741707558197445635197929852,
    45957672030687985500068449147571820879,
    238772663009064566585789025510449468605,
    308263689632298985436174833718279734924,
    298982410596069786254627646273326400800,
    2244176292867905328887424137926821699,
    34721296915894558738704206213893188420,
    227015355474010607175270930286589261011,
    308502710206809842135053894107204523487,
    146538376305465661599209369402222819461,
    159692021743413415074302850174068383568,
    103819174433678404361461488507139426080,
    164343202337136670407601407619427541712,
    217357595969365236955177552303353032768,
    326862821007517307943524611182174298689,
    303852181513843641619676160939741484549,
    147814125101532749435588302881764112760
  ]

  /** A seeded generator: the stream its seed determines, and how many values
      have been drawn from it so far. */
  class Mt64 {
    const outputs: nat -> u128
    var drawn: nat

    constructor SeedFromU64(seed: u64, mt: Mt64Stream)
      ensures outputs == mt(seed)
      ensures drawn == 0
    {
      outputs := mt(seed);
      drawn := 0;
    }

    /** Draws the next value of the stream. */
    method Gen() returns (x: u128)
      modifies this
      ensures x == outputs(old(drawn))
      ensures drawn == old(drawn) + 1
    {
      x := outputs(drawn);
      drawn := drawn + 1;
    }
  }

  /** The first `n` values of a stream, in order. */
  function Draws(outputs: nat -> u128, n: nat): (r: seq<u128>)
    ensures |r| == n
    ensures forall i :: 0 <= i < n ==> r[i] == outputs(i)
  {
    if n == 0 then [] else Draws(outputs, n - 1) + [outputs(n - 1)]
  }

  /** Whether a call is answered from the table rather than the generator. */
  predicate UsesTable(seed: u32, count: u8)
  {
    seed == RESERVED_SEED && count <= |PREDEFINED_U128_NUMBERS|
  }

  /** What `generate_u128_random_numbers(seed, count)` returns. */
  function GeneratedNumbers(seed: u32, count: u8, mt: Mt64Stream): (r: seq<u128>)
    ensures |r| == count
  {
    if UsesTable(seed, count) then PREDEFINED_U128_NUMBERS[..count] else Draws(mt(seed), count)
  }

  /** The generation as the source runs it: a table slice for the reserved
      seed, otherwise a loop that draws `count` values from a generator
      seeded with the seed (widened to 64 bits) and pushes each one. */
  method GenerateU128RandomNumbers(seed: u32, count: u8, mt: Mt64Stream) returns (result: seq<u128>)
    ensures |result| == count
    ensures UsesTable(seed, count) ==> result == PREDEFINED_U128_NUMBERS[..count]
    ensures !UsesTable(seed, count) ==> forall i :: 0 <= i < count ==> result[i] == mt(seed)(i)
    ensures result == GeneratedNumbers(seed, count, mt)
  {
    if seed == RESERVED_SEED && count <= |PREDEFINED_U128_NUMBERS| {
      return PREDEFINED_U128_NUMBERS[..count];
    }
    result := [];
    var rng := new Mt64.SeedFromU64(seed, mt);
    for i := 0 to count
      invariant rng.outputs == mt(seed)
      invariant rng.drawn == i
      invariant result == Draws(mt(seed), i)
    {
      var x := rng.Gen();
      result := result + [x];
    }
  }

  /** The reserved seed with a count of at most 20 answers with the start of
      the table, whatever the generator. */
  lemma ReservedSeedUsesTable(count: u8, mt: Mt64Stream)
    requires count <= 20
    ensures GeneratedNumbers(RESERVED_SEED, count, mt) == PREDEFINED_U128_NUMBERS[..count]
  {
  }

  /** The reserved seed with a count above 20 draws from the generator like
      any other seed. */
  lemma ReservedSeedBeyondTable(count: u8, mt: Mt64Stream)
    requires count > 20
    ensures forall i :: 0 <= i < count ==> GeneratedNumbers(RESERVED_SEED, count, mt)[i] == mt(RESERVED_SEED)(i)
  {
  }

  /** Seed 123 with count 2 gives the first two table values. */
  lemma ReservedSeedFirstTwo(mt: Mt64Stream)
    ensures GeneratedNumbers(123, 2, mt) == [
      261662301160200998434711212977610535782,
      285327960644938307249498422906269531911]
  {
  }

  /** Asking for fewer numbers gives a prefix of asking for more, except when
      the reserved seed switches from the table to the generator between the
      two counts. */
  lemma GeneratedPrefix(seed: u32, n: u8, m: u8, mt: Mt64Stream)
    requires n <= m
    requires UsesTable(seed, n) == UsesTable(seed, m)
    ensures GeneratedNumbers(seed, n, mt) == GeneratedNumbers(seed, m, mt)[..n]
  {
  }
}
