/** `DiceRoller.explodeAndCombine(times, conditionals)` (`!!`): every slot
    that matches when the modifier starts is marked `!` and absorbs new draws
    into its own value instead of gaining new slots. Each such slot takes one
    draw unconditionally and more while the draw counter is below `times` and
    the newest draw matches. The counter is declared once, before the loop
    over the slots, and is never reset, so the extra draws of all slots
    together are bounded by `times`. */
module Combine {
  import opened Common
  import opened Conditions
  import opened Random
  import opened Slots
  import opened Explode

  /** A slot after one draw `v` has been added to it; its text follows. */
  function Absorb(x: Slot, v: int): Slot {
    x.(value := x.value + v, shown := x.value + v)
  }

  /** A slot being combined, the shared counter and the tape left. */
  datatype Boosted = Boosted(slot: Slot, count: nat, tape: Tape)

  /** The inner `while` loop: `newRoll` is the newest draw and `i` the
      shared counter. */
  function Boost(x: Slot, newRoll: int, i: nat, times: int, c: seq<Conditional>, min: int, max: int,
                 tape: Tape): Boosted
    decreases times - i
  {
    if i < times && Matches(newRoll, c) then
      var v := Next(tape, min, max);
      Boost(Absorb(x, v), v, i + 1, times, c, min, max, Rest(tape))
    else Boosted(x, i, tape)
  }

  /** One matching slot: the unconditional draw, the mark, then the loop. */
  function CombineOne(x: Slot, i: nat, times: int, c: seq<Conditional>, min: int, max: int,
                      tape: Tape): Boosted
  {
    var v := Next(tape, min, max);
    Boost(Absorb(Exploded(x), v), v, i + 1, times, c, min, max, Rest(tape))
  }

  /** The slots after the modifier, the final counter and the tape left. */
  datatype Combined = Combined(slots: seq<Slot>, count: nat, tape: Tape)

  /** The `forEach` over the slots, slot by slot from the front (written
      from the back so that a prefix is a prefix); the counter starts at 0. */
  function CombineSlots(s: seq<Slot>, times: int, c: seq<Conditional>, min: int, max: int,
                        tape: Tape): (r: Combined)
    ensures |r.slots| == |s|
  {
    if s == [] then Combined([], 0, tape)
    else
      var n := |s| - 1;
      var pre := CombineSlots(s[..n], times, c, min, max, tape);
      if Matches(s[n].value, c) then
        var b := CombineOne(s[n], pre.count, times, c, min, max, pre.tape);
        Combined(pre.slots + [b.slot], b.count, b.tape)
      else Combined(pre.slots + [s[n]], pre.count, pre.tape)
  }

  /** `explodeAndCombine(times, conditionals)` on the slots of a non-static
      group, with the default condition `= faces.max`. */
  function CombineAll(s: seq<Slot>, times: int, conds: seq<Conditional>, min: int, max: int,
                      tape: Tape): (r: Combined)
    ensures |r.slots| == |s|
  {
    CombineSlots(s, times, WithDefault(conds, max), min, max, tape)
  }

  /** How many slots match: the length of `toExplode`. */
  function CountMatching(s: seq<Slot>, c: seq<Conditional>): nat {
    if s == [] then 0 else CountMatching(s[..|s| - 1], c) + (if Matches(s[|s| - 1].value, c) then 1 else 0)
  }

  /** One more slot: combined into, when it matches, with the counter and
      tape the slots before it left. */
  lemma CombineStep(s: seq<Slot>, k: nat, times: int, c: seq<Conditional>, min: int, max: int, tape: Tape)
    requires k < |s|
    ensures var pre := CombineSlots(s[..k], times, c, min, max, tape);
      var b := CombineOne(s[k], pre.count, times, c, min, max, pre.tape);
      CombineSlots(s[..k + 1], times, c, min, max, tape) ==
        if Matches(s[k].value, c) then Combined(pre.slots + [b.slot], b.count, b.tape)
        else Combined(pre.slots + [s[k]], pre.count, pre.tape)
  {
    assert s[..k + 1][..k] == s[..k];
  }

  // ---------------------------------------------------------------------------
  // Properties
  // ---------------------------------------------------------------------------

  /** The inner loop takes one draw per counter step and, when it takes any,
      stops with the counter at most `times`. */
  lemma {:induction false} BoostCount(x: Slot, newRoll: int, i: nat, times: int, c: seq<Conditional>,
                                      min: int, max: int, tape: Tape)
    decreases times - i
    ensures var r := Boost(x, newRoll, i, times, c, min, max, tape);
      && i <= r.count && (r.count > i ==> r.count <= times)
      && r.tape == Skip(r.count - i, tape)
  {
    if i < times && Matches(newRoll, c) {
      var v := Next(tape, min, max);
      var r' := Boost(Absorb(x, v), v, i + 1, times, c, min, max, Rest(tape));
      BoostCount(Absorb(x, v), v, i + 1, times, c, min, max, Rest(tape));
      assert r'.tape == Skip(r'.count - (i + 1), Rest(tape));
    } else {
      assert Skip(0, tape) == tape;
    }
  }

  /** The inner loop adds the draws it takes, in tape order, to the slot's
      value. */
  lemma {:induction false} BoostValue(x: Slot, newRoll: int, i: nat, times: int, c: seq<Conditional>,
                                      min: int, max: int, tape: Tape)
    decreases times - i
    ensures var r := Boost(x, newRoll, i, times, c, min, max, tape);
      i <= r.count && r.slot.value == x.value + Gain(r.count - i, min, max, tape)
  {
    if i < times && Matches(newRoll, c) {
      var v := Next(tape, min, max);
      var r' := Boost(Absorb(x, v), v, i + 1, times, c, min, max, Rest(tape));
      BoostValue(Absorb(x, v), v, i + 1, times, c, min, max, Rest(tape));
      assert r'.slot.value == x.value + v + Gain(r'.count - (i + 1), min, max, Rest(tape));
    }
  }

  /** The inner loop leaves `usable` and the marks alone, and the text shows
      the new value once a draw was added. */
  lemma {:induction false} BoostFields(x: Slot, newRoll: int, i: nat, times: int, c: seq<Conditional>,
                                       min: int, max: int, tape: Tape)
    decreases times - i
    ensures var r := Boost(x, newRoll, i, times, c, min, max, tape);
      && r.slot.usable == x.usable && r.slot.marks == x.marks
      && (r.count == i ==> r.slot == x)
      && (r.count != i ==> r.slot.shown == r.slot.value)
  {
    if i < times && Matches(newRoll, c) {
      var v := Next(tape, min, max);
      var r' := Boost(Absorb(x, v), v, i + 1, times, c, min, max, Rest(tape));
      BoostFields(Absorb(x, v), v, i + 1, times, c, min, max, Rest(tape));
      BoostCount(Absorb(x, v), v, i + 1, times, c, min, max, Rest(tape));
    }
  }

  /** The newest draw once the inner loop has taken `k` draws from `tape`,
      starting from `newRoll`. */
  function Latest(newRoll: int, k: nat, min: int, max: int, tape: Tape): int {
    if k == 0 then newRoll else Next(Skip(k - 1, tape), min, max)
  }

  /** Both halves of the inner `while` test: the loop takes another draw only
      after a matching newest draw, and it stops before the counter reaches
      `times` only on a newest draw that does not match. */
  lemma {:induction false} BoostStops(x: Slot, newRoll: int, i: nat, times: int, c: seq<Conditional>,
                                      min: int, max: int, tape: Tape)
    decreases times - i
    ensures var r := Boost(x, newRoll, i, times, c, min, max, tape);
      && i <= r.count
      && (forall k :: 0 <= k < r.count - i ==> Matches(Latest(newRoll, k, min, max, tape), c))
      && (r.count < times ==> !Matches(Latest(newRoll, r.count - i, min, max, tape), c))
  {
    if i < times && Matches(newRoll, c) {
      var v := Next(tape, min, max);
      var r' := Boost(Absorb(x, v), v, i + 1, times, c, min, max, Rest(tape));
      BoostStops(Absorb(x, v), v, i + 1, times, c, min, max, Rest(tape));
      forall k | 1 <= k <= r'.count - i
        ensures Latest(newRoll, k, min, max, tape) == Latest(v, k - 1, min, max, Rest(tape))
      {
        if k == 1 {
          assert Skip(0, tape) == tape;
        } else {
          assert Skip(k - 2, Rest(tape)) == Skip(k - 1, tape);
        }
      }
    }
  }

  /** One matching slot advances the counter by the number of draws it
      takes, at least one, and past `times` only by the unconditional draw.
      Its draws are the next ones on the tape: every one but the last
      matched, and when the counter ends below `times` the last one did not
      match. */
  lemma CombineOneCount(x: Slot, i: nat, times: int, c: seq<Conditional>, min: int, max: int, tape: Tape)
    ensures var b := CombineOne(x, i, times, c, min, max, tape);
      && i + 1 <= b.count && (b.count > i + 1 ==> b.count <= times)
      && b.tape == Skip(b.count - i, tape)
      && (forall j :: 0 <= j < b.count - i - 1 ==> Matches(Next(Skip(j, tape), min, max), c))
      && (b.count < times ==> !Matches(Next(Skip(b.count - i - 1, tape), min, max), c))
  {
    var v := Next(tape, min, max);
    var y := Absorb(Exploded(x), v);
    var b := Boost(y, v, i + 1, times, c, min, max, Rest(tape));
    BoostCount(y, v, i + 1, times, c, min, max, Rest(tape));
    BoostStops(y, v, i + 1, times, c, min, max, Rest(tape));
    forall j | 0 <= j <= b.count - i - 1
      ensures Next(Skip(j, tape), min, max) == Latest(v, j, min, max, Rest(tape))
    {
      if j == 0 {
        assert Skip(0, tape) == tape;
      } else {
        assert Skip(j - 1, Rest(tape)) == Skip(j, tape);
      }
    }
  }

  /** One matching slot keeps `usable`, gains the mark `!`, absorbs the
      draws it takes, in tape order, and shows its new value. */
  lemma CombineOneSlot(x: Slot, i: nat, times: int, c: seq<Conditional>, min: int, max: int, tape: Tape)
    ensures var b := CombineOne(x, i, times, c, min, max, tape);
      && i < b.count
      && b.slot.value == x.value + Gain(b.count - i, min, max, tape)
      && b.slot.usable == x.usable && b.slot.marks == AddMark(x.marks, '!')
      && b.slot.shown == b.slot.value
  {
    var v := Next(tape, min, max);
    var y := Absorb(Exploded(x), v);
    BoostValue(y, v, i + 1, times, c, min, max, Rest(tape));
    BoostFields(y, v, i + 1, times, c, min, max, Rest(tape));
  }

  /** A slot that does not match is left as it was; a matching one keeps
      `usable`, gains the mark `!` and shows its new value. */
  lemma {:induction false} CombineFrame(s: seq<Slot>, times: int, c: seq<Conditional>, min: int, max: int,
                                        tape: Tape)
    ensures var r := CombineSlots(s, times, c, min, max, tape);
      forall j :: 0 <= j < |s| ==>
        if Matches(s[j].value, c) then
          && r.slots[j].usable == s[j].usable && r.slots[j].marks == AddMark(s[j].marks, '!')
          && r.slots[j].shown == r.slots[j].value
        else r.slots[j] == s[j]
  {
    if s != [] {
      var n := |s| - 1;
      var pre := CombineSlots(s[..n], times, c, min, max, tape);
      CombineFrame(s[..n], times, c, min, max, tape);
      var r := CombineSlots(s, times, c, min, max, tape);
      if Matches(s[n].value, c) {
        CombineOneSlot(s[n], pre.count, times, c, min, max, pre.tape);
      }
      forall j | 0 <= j < n ensures r.slots[j] == pre.slots[j] && s[j] == s[..n][j] {
      }
    }
  }

  /** With `m` matching slots, the shared counter ends between `m` and
      `m + times - 1` (just `m` when `times <= 1`): one draw per matching
      slot, and all the extra draws of all slots together fewer than
      `times`; the counter counts the draws taken from the tape. */
  lemma {:induction false} CombineCount(s: seq<Slot>, times: int, c: seq<Conditional>, min: int, max: int,
                                        tape: Tape)
    ensures var r := CombineSlots(s, times, c, min, max, tape);
      var m := CountMatching(s, c);
      && m <= r.count <= m + (if times > 1 then times - 1 else 0)
      && r.tape == Skip(r.count, tape)
  {
    if s != [] {
      var n := |s| - 1;
      var pre := CombineSlots(s[..n], times, c, min, max, tape);
      CombineCount(s[..n], times, c, min, max, tape);
      assert pre.tape == Skip(pre.count, tape);
      if Matches(s[n].value, c) {
        var b := CombineOne(s[n], pre.count, times, c, min, max, pre.tape);
        CombineOneCount(s[n], pre.count, times, c, min, max, pre.tape);
      }
    } else {
      assert Skip(0, tape) == tape;
    }
  }

  /** The last slot of `s`, after the modifier: the earlier slots' result
      plus the last slot, which absorbs the draws taken for it. */
  lemma CombineLast(s: seq<Slot>, times: int, c: seq<Conditional>, min: int, max: int, tape: Tape)
    requires s != []
    ensures var n := |s| - 1;
      var pre := CombineSlots(s[..n], times, c, min, max, tape);
      var r := CombineSlots(s, times, c, min, max, tape);
      && pre.count <= r.count
      && r.slots == pre.slots + [r.slots[n]]
      && r.slots[n].usable == s[n].usable
      && r.slots[n].value == s[n].value + Gain(r.count - pre.count, min, max, pre.tape)
  {
    var n := |s| - 1;
    var pre := CombineSlots(s[..n], times, c, min, max, tape);
    var r := CombineSlots(s, times, c, min, max, tape);
    if Matches(s[n].value, c) {
      var b := CombineOne(s[n], pre.count, times, c, min, max, pre.tape);
      assert r == Combined(pre.slots + [b.slot], b.count, b.tape);
      CombineOneSlot(s[n], pre.count, times, c, min, max, pre.tape);
      assert r.slots[n] == b.slot;
    } else {
      assert r == Combined(pre.slots + [s[n]], pre.count, pre.tape);
      assert r.slots[n] == s[n];
    }
  }

  /** With every slot usable, the result grows by exactly the sum of all the
      draws taken. */
  lemma {:induction false} CombineTotal(s: seq<Slot>, times: int, c: seq<Conditional>, min: int, max: int,
                                        tape: Tape)
    requires forall j :: 0 <= j < |s| ==> s[j].usable
    ensures var r := CombineSlots(s, times, c, min, max, tape);
      Total(r.slots) == Total(s) + Gain(r.count, min, max, tape)
  {
    if s != [] {
      var n := |s| - 1;
      var pre := CombineSlots(s[..n], times, c, min, max, tape);
      CombineTotal(s[..n], times, c, min, max, tape);
      CombineCount(s[..n], times, c, min, max, tape);
      var r := CombineSlots(s, times, c, min, max, tape);
      CombineLast(s, times, c, min, max, tape);
      TotalLast(pre.slots, r.slots[n]);
      assert s == s[..n] + [s[n]];
      TotalLast(s[..n], s[n]);
      GainSplit(pre.count, r.count - pre.count, min, max, tape);
    }
  }

  /** The two slots of the scenario below, one at a time. */
  lemma SharedCounterSteps(x: Slot, c: seq<Conditional>)
    requires x == Fresh(6) && c == WithDefault([], 6)
    ensures CombineOne(x, 0, 2, c, 1, 6, Tape([6, 1, 6, 5], 0)) == Boosted(Absorb(Absorb(Exploded(x), 6), 1), 2, Tape([6, 1, 6, 5], 2))
    ensures CombineOne(x, 2, 2, c, 1, 6, Tape([6, 1, 6, 5], 2)) == Boosted(Absorb(Exploded(x), 6), 3, Tape([6, 1, 6, 5], 3))
  {
    assert Matches(6, c) && !Matches(1, c);
  }

  /** The scenario `2d6!!2` with draws 6, 6 and then 6, 1, 6, 5: the first
      slot absorbs 6 and 1 and uses up the shared counter, so the second
      absorbs only its unconditional 6 although it matched again; the 5 is
      never drawn. */
  lemma CombineSharedCounter()
    ensures var r := CombineAll(FreshSlots([6, 6]), 2, [], 1, 6, Tape([6, 1, 6, 5], 0));
      && Values(r.slots) == [13, 12] && r.slots[0].marks == ['!'] && r.slots[1].marks == ['!']
      && r.count == 3 && r.tape == Tape([6, 1, 6, 5], 3) && Total(r.slots) == 25
  {
    var s := FreshSlots([6, 6]);
    var c := WithDefault([], 6);
    SharedCounterSteps(s[0], c);
    var y0 := Absorb(Absorb(Exploded(s[0]), 6), 1);
    var y1 := Absorb(Exploded(s[1]), 6);
    assert s[..1] == [s[0]] && [s[0]][..0] == [];
    assert CombineSlots(s[..1], 2, c, 1, 6, Tape([6, 1, 6, 5], 0)) == Combined([y0], 2, Tape([6, 1, 6, 5], 2));
    var r := CombineAll(s, 2, [], 1, 6, Tape([6, 1, 6, 5], 0));
    assert r == Combined([y0] + [y1], 3, Tape([6, 1, 6, 5], 3));
    assert Values(r.slots) == [13, 12];
    assert Total(r.slots) == 13 + Total([y1]);
  }
}
