/**
 * A concrete, seeded pseudo-random generator standing in for `kotlin.random.Random(seed)`
 * and `List.shuffled(random)`. Only its range and permutation guarantees are used by the
 * rest of the model; its particular number sequence is not the JVM's.
 */
module Rand {

  const Modulus: int := 0x1_0000_0000_0000

  /** A generator state; equal seeds give equal states and therefore equal sequences. */
  datatype Random = Random(state: int)

  /** `Random(seed)`: every seed, negative ones included, yields a valid state. */
  function Seeded(seed: int): (r: Random)
    ensures 0 <= r.state < Modulus
  {
    Random(seed % Modulus)
  }

  /** One linear-congruential step. */
  function Step(r: Random): (n: Random)
    ensures 0 <= n.state < Modulus
  {
    Random((r.state * 0x5_DEEC_E66D + 0xB) % Modulus)
  }

  /** `nextInt(bound)`: a value in [0, bound) and the advanced generator. */
  function NextInt(r: Random, bound: int): (res: (int, Random))
    requires bound > 0
    ensures 0 <= res.0 < bound
  {
    var n := Step(r);
    (n.state % bound, n)
  }

  /** `nextInt(from, until)`: a value in [from, until). */
  function NextIntIn(r: Random, from: int, until: int): (res: (int, Random))
    requires from < until
    ensures from <= res.0 < until
  {
    var (v, n) := NextInt(r, until - from);
    (from + v, n)
  }

  /** `nextFloat()`: a value in [0, 1). */
  function NextFloat(r: Random): (res: (real, Random))
    ensures 0.0 <= res.0 < 1.0
  {
    var n := Step(r);
    ((n.state % 0x100_0000) as real / 16777216.0, n)
  }

  /** `shuffled(random)`: a permutation of `s` determined by the generator. */
  function Shuffled<T>(s: seq<T>, r: Random): (res: seq<T>)
    ensures |res| == |s|
    ensures multiset(res) == multiset(s)
    decreases |s|
  {
    if s == [] then []
    else
      var (k, r') := NextInt(r, |s|);
      var rest := s[..k] + s[k + 1..];
      assert s == s[..k] + [s[k]] + s[k + 1..];
      [s[k]] + Shuffled(rest, r')
  }

  /** `shuffled(Random(seed))`: the permutation is a function of the list and the seed alone. */
  function ShuffledWithSeed<T>(s: seq<T>, seed: int): (res: seq<T>)
    ensures |res| == |s|
    ensures multiset(res) == multiset(s)
  {
    Shuffled(s, Seeded(seed))
  }
}
