/** The program's sources of nondeterminism, made explicit inputs.

    Python's module-level `random` stream is modelled as an infinite
    sequence of raw draws `draws` read at position `pos`; each primitive
    (`randint`, `choice`, `random`, `uniform`) consumes exactly one draw.
    Faker's `fake.name()` keeps its own generator, so its names are a
    second stream read at `namePos`. The wall clock enters only through
    `datesBefore(d)`, the calendar date `d` days before now, already
    formatted as DD/MM/YYYY. */
module Rng {

  /** `random.random()` returns k / 2^53 for a 53-bit integer k. */
  const RANDOM_SCALE: nat := 0x20_0000_0000_0000

  datatype Oracle = Oracle(
    draws: nat -> nat,
    names: nat -> string,
    datesBefore: nat -> string,
    pos: nat,
    namePos: nat)
  {
    /** The same streams, `k` draws further on. */
    function Skip(k: nat): (o: Oracle)
      ensures o.pos == pos + k
    {
      this.(pos := pos + k)
    }
  }

  /** A value produced from the oracle, with the oracle left after it. */
  datatype Draw<T> = Draw(value: T, next: Oracle)

  /** `_randbelow(n)`: one draw reduced below `n`. */
  function Below(o: Oracle, n: nat): (r: Draw<nat>)
    requires n > 0
    ensures r.value < n && r.next == o.Skip(1)
  {
    Draw(o.draws(o.pos) % n, o.Skip(1))
  }

  /** `random.randint(lo, hi)`: inclusive at both ends. */
  function RandInt(o: Oracle, lo: int, hi: int): (r: Draw<int>)
    requires lo <= hi
    ensures lo <= r.value <= hi && r.next == o.Skip(1)
  {
    var b := Below(o, hi - lo + 1);
    Draw(lo + b.value, b.next)
  }

  /** The entry `random.choice(pool)` picks when the raw draw is `d`. */
  function Pick<T>(pool: seq<T>, d: nat): T
    requires |pool| > 0
  {
    pool[d % |pool|]
  }

  /** `random.choice(pool)`. */
  function Choice<T(==)>(o: Oracle, pool: seq<T>): (r: Draw<T>)
    requires |pool| > 0
    ensures r.value in pool && r.next == o.Skip(1)
    ensures r.value == Pick(pool, o.draws(o.pos))
  {
    Draw(Pick(pool, o.draws(o.pos)), o.Skip(1))
  }

  /** `random.random()`: a value in [0, 1). */
  function Random(o: Oracle): (r: Draw<real>)
    ensures 0.0 <= r.value < 1.0 && r.next == o.Skip(1)
  {
    var k := o.draws(o.pos) % RANDOM_SCALE;
    Draw(k as real / RANDOM_SCALE as real, o.Skip(1))
  }

  /** `random.uniform(a, b)`, computed as `a + (b - a) * random()`. */
  function Uniform(o: Oracle, a: real, b: real): (r: Draw<real>)
    ensures r.next == o.Skip(1)
  {
    var u := Random(o);
    Draw(a + (b - a) * u.value, u.next)
  }

  /** `fake.name()`: the next name of Faker's own stream. */
  function FakeName(o: Oracle): (r: Draw<string>)
    ensures r.value == o.names(o.namePos)
    ensures r.next == o.(namePos := o.namePos + 1)
  {
    Draw(o.names(o.namePos), o.(namePos := o.namePos + 1))
  }

  /** Some draw at or after `from` makes `random.choice(pool)` return an
      entry other than `avoid`: the condition under which a
      resample-until-different loop started at `from` stops. */
  ghost predicate Recurs<T(!new)>(draws: nat -> nat, from: nat, pool: seq<T>, avoid: T) {
    |pool| > 0 && exists k: nat :: from <= k && Pick(pool, draws(k)) != avoid
  }
}
