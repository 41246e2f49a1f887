/** The `DiceRoller` constructor's normalisation of a dice group's count and
    face range, from the parts its regular expression captures (the count,
    an optional low face and the high face text). A text that does not
    match has count 1 and faces `[1, 1]`. */
module Faces {
  import opened Common

  /** The high face as captured: a number, `%` or `F`. */
  datatype MaxText = Number(n: int) | Percent | Fudge

  /** The captured parts; `min` is `null` when absent. */
  datatype Captured = Captured(rolls: int, min: Option<int>, max: MaxText)

  /** The values the constructor settles on. */
  datatype Faces = Faces(rolls: int, min: int, max: int)

  /** The constructor's working value of `min` or `max`: the captured text,
      the number the code assigns, or `null`. `Number(null)` is 0 and only
      `null` is falsy (every captured text is a non-empty string). */
  datatype Work = Text(t: int) | Assigned(a: int) | Null

  function AsNumber(w: Work): int {
    match w
    case Text(t) => t
    case Assigned(a) => a
    case Null => 0
  }

  /** The part of the source that `%` and `F` feed: `%` is the number 100,
      `F` the number 1. A numeric text converts to its own number. */
  function MaxWork(m: MaxText): Work {
    match m
    case Number(n) => Text(n)
    case Percent => Assigned(100)
    case Fudge => Assigned(1)
  }

  /** The steps of the constructor in order: `Number(rolls) || 1`; a negative
      high face without a low one gets low face -1; `%` and `F`; swap when
      the high face is below the low one; a missing face becomes 1. */
  function Normalise(c: Captured): (f: Faces)
    ensures f.rolls == (if c.rolls == 0 then 1 else c.rolls)
  {
    var rolls := if c.rolls == 0 then 1 else c.rolls;
    var min0 := if c.min.Some? then Text(c.min.value) else Null;
    var min1 := if c.max.Number? && c.max.n < 0 && min0.Null? then Assigned(-1) else min0;
    var max2 := MaxWork(c.max);
    var min2 := if c.max.Fudge? then Assigned(-1) else min1;
    var swap := AsNumber(max2) < AsNumber(min2);
    var max3 := if swap then min2 else max2;
    var min3 := if swap then max2 else min2;
    Faces(rolls, if min3.Null? then 1 else AsNumber(min3), if max3.Null? then 1 else AsNumber(max3))
  }

  // ---------------------------------------------------------------------------
  // Properties
  // ---------------------------------------------------------------------------

  /** The face range is the two captured faces in ascending order, with 1
      for a missing low face, -1 for a missing low face under a negative high
      one, 100 for `%` and `[-1, 1]` for `F`. */
  lemma NormaliseRange(c: Captured)
    ensures var f := Normalise(c);
      && (c.max == Fudge ==> f.min == -1 && f.max == 1)
      && (c.max == Percent && c.min.None? ==> f.min == 1 && f.max == 100)
      && (c.max.Number? && c.min.None? && c.max.n < 0 ==> f.min == c.max.n && f.max == -1)
      && (c.max.Number? && c.min.None? && c.max.n > 0 ==> f.min == 1 && f.max == c.max.n)
      && (!c.max.Fudge? && c.min.Some? ==>
            var hi := AsNumber(MaxWork(c.max));
            f.min == (if c.min.value <= hi then c.min.value else hi) &&
            f.max == (if c.min.value <= hi then hi else c.min.value))
  {
  }

  /** The low face ends above the high one only for a high face of 0 with no
      low face (`1d0`), which leaves the range `[1, 0]`. */
  lemma NormaliseInverted(c: Captured)
    ensures var f := Normalise(c);
      f.max < f.min <==> c.min.None? && c.max == Number(0)
    ensures c.min.None? && c.max == Number(0) ==> Normalise(c) == Faces(if c.rolls == 0 then 1 else c.rolls, 1, 0)
  {
  }

  /** A text the expression does not match takes the defaults `[, 1, null, 1]`. */
  const Unmatched := Captured(1, None, Number(1))

  lemma UnmatchedFaces()
    ensures Normalise(Unmatched) == Faces(1, 1, 1)
  {
  }
}
