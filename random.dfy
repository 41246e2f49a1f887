/** The random source behind `DiceRoller.getRandomBetween`, as an injected
    oracle: the values the draws of one evaluation would read, in order, and
    how many have been read. A draw takes the next value when it lies in the
    range `getRandomBetween(min, max)` can return, and the low end of that
    range otherwise (also when the values have run out), so every draw
    honours the range and a list of in-range values is reproduced exactly. */
module Random {

  /** The oracle's values and the position of the next draw. */
  datatype Tape = Tape(vals: seq<int>, pos: nat)

  /** A value computed together with the tape after its draws. */
  datatype Drawn<T> = Drawn(out: T, tape: Tape)

  /** What `Math.floor(Math.random() * (max - min + 1)) + min` can return:
      `[min, max]` when `min <= max`; for `max < min` the factor is not
      positive and the result lies in `(max, min]` (the normalised faces of
      `1d0`, min 1 and max 0, always give 1). */
  predicate InDrawRange(r: int, min: int, max: int) {
    if min <= max then min <= r <= max else max < r <= min
  }

  /** The value a draw yields. */
  function Next(tape: Tape, min: int, max: int): (r: int)
    ensures InDrawRange(r, min, max)
    ensures tape.pos < |tape.vals| && InDrawRange(tape.vals[tape.pos], min, max) ==> r == tape.vals[tape.pos]
  {
    if tape.pos < |tape.vals| && InDrawRange(tape.vals[tape.pos], min, max) then tape.vals[tape.pos] else min
  }

  /** The tape after one draw. */
  function Rest(tape: Tape): Tape {
    tape.(pos := tape.pos + 1)
  }

  /** The tape after `n` draws. */
  function Skip(n: nat, tape: Tape): Tape {
    tape.(pos := tape.pos + n)
  }

  /** `n` successive draws in `[min, max]` (`[...Array(n)].map(getRandomBetween)`). */
  function Draws(n: nat, min: int, max: int, tape: Tape): (r: seq<int>)
    ensures |r| == n
    ensures forall i :: 0 <= i < n ==> InDrawRange(r[i], min, max)
  {
    if n == 0 then [] else [Next(tape, min, max)] + Draws(n - 1, min, max, Rest(tape))
  }

  /** Draws read the values in order: with enough in-range values left the
      draws are exactly the next `n` of them. */
  lemma {:induction false} DrawsFromTape(n: nat, min: int, max: int, tape: Tape)
    requires tape.pos + n <= |tape.vals|
    requires forall i :: tape.pos <= i < tape.pos + n ==> InDrawRange(tape.vals[i], min, max)
    ensures Draws(n, min, max, tape) == tape.vals[tape.pos..tape.pos + n]
  {
    if n > 0 {
      DrawsFromTape(n - 1, min, max, Rest(tape));
      var p := tape.pos;
      assert tape.vals[p..p + n] == [tape.vals[p]] + tape.vals[p + 1..p + n];
    }
  }

  /** One more draw appends the value read at the tape's new position. */
  lemma {:induction false} DrawsSnoc(n: nat, min: int, max: int, tape: Tape)
    ensures Draws(n + 1, min, max, tape) == Draws(n, min, max, tape) + [Next(Skip(n, tape), min, max)]
  {
    if n > 0 {
      DrawsSnoc(n - 1, min, max, Rest(tape));
      assert Skip(n - 1, Rest(tape)) == Skip(n, tape);
      var head := [Next(tape, min, max)];
      assert head + (Draws(n - 1, min, max, Rest(tape)) + [Next(Skip(n, tape), min, max)])
          == (head + Draws(n - 1, min, max, Rest(tape))) + [Next(Skip(n, tape), min, max)];
    }
  }

  /** The sum of the next `k` draws. */
  function Gain(k: nat, min: int, max: int, tape: Tape): int {
    if k == 0 then 0 else Next(tape, min, max) + Gain(k - 1, min, max, Rest(tape))
  }

  /** `a + b` draws add up to the first `a` of them plus the `b` taken from
      where those left the tape. */
  lemma {:induction false} GainSplit(a: nat, b: nat, min: int, max: int, tape: Tape)
    ensures Gain(a + b, min, max, tape) == Gain(a, min, max, tape) + Gain(b, min, max, Skip(a, tape))
  {
    if a > 0 {
      GainSplit(a - 1, b, min, max, Rest(tape));
      assert Skip(a - 1, Rest(tape)) == Skip(a, tape);
    } else {
      assert Skip(0, tape) == tape;
    }
  }

  function Sum(xs: seq<int>): int {
    if xs == [] then 0 else xs[0] + Sum(xs[1..])
  }

  /** The draws `Gain` adds up are the ones `Draws` lists. */
  lemma {:induction false} GainDraws(k: nat, min: int, max: int, tape: Tape)
    ensures Gain(k, min, max, tape) == Sum(Draws(k, min, max, tape))
  {
    if k > 0 {
      GainDraws(k - 1, min, max, Rest(tape));
      var d := Draws(k - 1, min, max, Rest(tape));
      assert Draws(k, min, max, tape) == [Next(tape, min, max)] + d;
      assert ([Next(tape, min, max)] + d)[1..] == d;
    }
  }

  /** The oracle of the current evaluation. */
  class Rng {
    var tape: Tape

    constructor (vals: seq<int>)
      ensures tape == Tape(vals, 0)
    {
      tape := Tape(vals, 0);
    }

    /** `getRandomBetween(min, max)`. */
    method Between(min: int, max: int) returns (r: int)
      modifies this
      ensures InDrawRange(r, min, max)
      ensures r == Next(old(tape), min, max) && tape == Rest(old(tape))
    {
      r := Next(tape, min, max);
      tape := Rest(tape);
    }
  }
}
