/** `DiceRoller.reroll(times, conditionals)`: the slots that match when the
    modifier starts form a frozen batch; while fewer than `times` passes have
    run and some slot of the batch still matches, every slot of the batch is
    redrawn and marked `r`. The slot's `display` text is left as it was. */
module Reroll {
  import opened Conditions
  import opened Random
  import opened Slots

  /** Which slots are in the batch (`toReroll`). */
  function Selection(s: seq<Slot>, conds: seq<Conditional>): (mask: seq<bool>)
    ensures |mask| == |s|
    ensures forall i :: 0 <= i < |s| ==> (mask[i] <==> Matches(s[i].value, conds))
  {
    seq(|s|, i requires 0 <= i < |s| => Matches(s[i].value, conds))
  }

  /** Number of slots in a batch. */
  function CountTrue(mask: seq<bool>): nat {
    if mask == [] then 0 else (if mask[0] then 1 else 0) + CountTrue(mask[1..])
  }

  /** Some slot of the batch still matches: the second half of the `while` test. */
  predicate StillMatching(s: seq<Slot>, mask: seq<bool>, conds: seq<Conditional>)
    requires |mask| == |s|
  {
    exists i :: 0 <= i < |s| && mask[i] && Matches(s[i].value, conds)
  }

  /** A slot after one redraw: new value, mark `r`, same `usable` and `display`. */
  function Redrawn(x: Slot, v: int): Slot {
    x.(value := v, marks := AddMark(x.marks, 'r'))
  }

  /** One pass of the loop body, from slot `k` on, in slot order. */
  function Pass(s: seq<Slot>, mask: seq<bool>, k: nat, min: int, max: int, tape: Tape): (r: Drawn<seq<Slot>>)
    requires |mask| == |s| && k <= |s|
    decreases |s| - k
    ensures |r.out| == |s|
  {
    if k == |s| then Drawn(s, tape)
    else if mask[k] then Pass(s[k := Redrawn(s[k], Next(tape, min, max))], mask, k + 1, min, max, Rest(tape))
    else Pass(s, mask, k + 1, min, max, tape)
  }

  /** The outcome of the loop: slots, tape left and the number of passes run. */
  datatype Rerolled = Rerolled(slots: seq<Slot>, tape: Tape, passes: nat)

  /** The `while` loop, with `i` passes already run. */
  function Passes(s: seq<Slot>, mask: seq<bool>, conds: seq<Conditional>, times: int, i: nat,
                  min: int, max: int, tape: Tape): (r: Rerolled)
    requires |mask| == |s|
    decreases times - i
    ensures |r.slots| == |s|
    ensures i <= r.passes
    ensures r.passes == i ==> r.slots == s && r.tape == tape
  {
    if i < times && StillMatching(s, mask, conds) then
      var p := Pass(s, mask, 0, min, max, tape);
      Passes(p.out, mask, conds, times, i + 1, min, max, p.tape)
    else Rerolled(s, tape, i)
  }

  /** The slots and tape after `k` passes, run whatever the `while` test says:
      the states the loop goes through. */
  function AfterPasses(s: seq<Slot>, mask: seq<bool>, k: nat, min: int, max: int, tape: Tape): (r: Drawn<seq<Slot>>)
    requires |mask| == |s|
    decreases k
    ensures |r.out| == |s|
  {
    if k == 0 then Drawn(s, tape)
    else
      var p := Pass(s, mask, 0, min, max, tape);
      AfterPasses(p.out, mask, k - 1, min, max, p.tape)
  }

  /** `reroll(times, conditionals)` on the slots of a non-static group. */
  function RerollSlots(s: seq<Slot>, times: int, conds: seq<Conditional>, min: int, max: int,
                       tape: Tape): (r: Rerolled)
    ensures |r.slots| == |s|
    ensures r.passes == 0 ==> r.slots == s && r.tape == tape
  {
    var c := WithDefault(conds, min);
    Passes(s, Selection(s, c), c, times, 0, min, max, tape)
  }

  // ---------------------------------------------------------------------------
  // Properties
  // ---------------------------------------------------------------------------

  lemma {:induction false} CountTrueSplit(mask: seq<bool>, k: nat)
    requires k < |mask|
    ensures CountTrue(mask[k..]) == (if mask[k] then 1 else 0) + CountTrue(mask[k + 1..])
  {
    assert mask[k..][1..] == mask[k + 1..];
  }

  /** One pass redraws exactly the batch slots from `k` on, in slot order,
      each with a value in the face range. */
  lemma {:induction false} PassSpec(s: seq<Slot>, mask: seq<bool>, k: nat, min: int, max: int, tape: Tape)
    requires |mask| == |s| && k <= |s|
    decreases |s| - k
    ensures var r := Pass(s, mask, k, min, max, tape);
      && (forall j :: 0 <= j < |s| && (j < k || !mask[j]) ==> r.out[j] == s[j])
      && (forall j :: k <= j < |s| && mask[j] ==>
            r.out[j] == Redrawn(s[j], r.out[j].value) && InDrawRange(r.out[j].value, min, max))
  {
    if k < |s| {
      if mask[k] {
        var s' := s[k := Redrawn(s[k], Next(tape, min, max))];
        PassSpec(s', mask, k + 1, min, max, Rest(tape));
      } else {
        PassSpec(s, mask, k + 1, min, max, tape);
      }
    }
  }

  /** One pass consumes one draw per batch slot from `k` on. */
  lemma {:induction false} PassTape(s: seq<Slot>, mask: seq<bool>, k: nat, min: int, max: int, tape: Tape)
    requires |mask| == |s| && k <= |s|
    decreases |s| - k
    ensures Pass(s, mask, k, min, max, tape).tape == Skip(CountTrue(mask[k..]), tape)
  {
    if k < |s| {
      CountTrueSplit(mask, k);
      if mask[k] {
        var s' := s[k := Redrawn(s[k], Next(tape, min, max))];
        PassTape(s', mask, k + 1, min, max, Rest(tape));
      } else {
        PassTape(s, mask, k + 1, min, max, tape);
      }
    }
  }

  /** Both halves of the `while` test. The loop from pass `i` on runs
      `r.passes - i` passes and ends in the state they reach; before each of
      them some batch slot still matched; it runs no pass or stops at `times`
      passes, or it stops because no batch slot matches. */
  lemma {:induction false} PassesStop(s: seq<Slot>, mask: seq<bool>, conds: seq<Conditional>, times: int, i: nat,
                                      min: int, max: int, tape: Tape)
    requires |mask| == |s|
    decreases times - i
    ensures var r := Passes(s, mask, conds, times, i, min, max, tape);
      && i <= r.passes && (r.passes == i || r.passes <= times)
      && Drawn(r.slots, r.tape) == AfterPasses(s, mask, r.passes - i, min, max, tape)
      && (forall k :: 0 <= k < r.passes - i ==> StillMatching(AfterPasses(s, mask, k, min, max, tape).out, mask, conds))
      && (r.passes < times ==> !StillMatching(r.slots, mask, conds))
      && (r.passes == i ==> r.slots == s && r.tape == tape)
  {
    if i < times && StillMatching(s, mask, conds) {
      var p := Pass(s, mask, 0, min, max, tape);
      PassesStop(p.out, mask, conds, times, i + 1, min, max, p.tape);
      var r := Passes(p.out, mask, conds, times, i + 1, min, max, p.tape);
      forall k | 1 <= k < r.passes - i
        ensures StillMatching(AfterPasses(s, mask, k, min, max, tape).out, mask, conds)
      {
        assert AfterPasses(s, mask, k, min, max, tape) == AfterPasses(p.out, mask, k - 1, min, max, p.tape);
      }
    }
  }

  /** Slots outside the batch are never touched. */
  lemma {:induction false} PassesFrame(s: seq<Slot>, mask: seq<bool>, conds: seq<Conditional>, times: int, i: nat,
                                       min: int, max: int, tape: Tape)
    requires |mask| == |s|
    decreases times - i
    ensures var r := Passes(s, mask, conds, times, i, min, max, tape);
      forall j :: 0 <= j < |s| && !mask[j] ==> r.slots[j] == s[j]
  {
    if i < times && StillMatching(s, mask, conds) {
      var p := Pass(s, mask, 0, min, max, tape);
      PassSpec(s, mask, 0, min, max, tape);
      PassesFrame(p.out, mask, conds, times, i + 1, min, max, p.tape);
    }
  }

  /** Once a pass has run, every batch slot is a redrawn copy of its old self. */
  lemma {:induction false} PassesRedraw(s: seq<Slot>, mask: seq<bool>, conds: seq<Conditional>, times: int, i: nat,
                                        min: int, max: int, tape: Tape)
    requires |mask| == |s|
    decreases times - i
    ensures var r := Passes(s, mask, conds, times, i, min, max, tape);
      r.passes > i ==> forall j :: 0 <= j < |s| && mask[j] ==>
        r.slots[j] == Redrawn(s[j], r.slots[j].value) && InDrawRange(r.slots[j].value, min, max)
  {
    if i < times && StillMatching(s, mask, conds) {
      var p := Pass(s, mask, 0, min, max, tape);
      PassSpec(s, mask, 0, min, max, tape);
      PassesStop(p.out, mask, conds, times, i + 1, min, max, p.tape);
      PassesRedraw(p.out, mask, conds, times, i + 1, min, max, p.tape);
      var r := Passes(p.out, mask, conds, times, i + 1, min, max, p.tape);
      forall j | 0 <= j < |s| && mask[j]
        ensures r.slots[j] == Redrawn(s[j], r.slots[j].value) && InDrawRange(r.slots[j].value, min, max)
      {
        assert 'r' in p.out[j].marks;
        if r.passes == i + 1 {
          assert r.slots == p.out;
        } else {
          assert r.slots[j] == Redrawn(p.out[j], r.slots[j].value);
        }
      }
    }
  }

  /** `n * c`, counted up one pass at a time. */
  function Times(n: nat, c: nat): (r: nat)
    ensures r == n * c
  {
    if n == 0 then 0 else Times(n - 1, c) + c
  }

  /** Each pass takes one draw per batch slot. */
  lemma {:induction false} PassesTape(s: seq<Slot>, mask: seq<bool>, conds: seq<Conditional>, times: int, i: nat,
                                      min: int, max: int, tape: Tape)
    requires |mask| == |s|
    decreases times - i
    ensures var r := Passes(s, mask, conds, times, i, min, max, tape);
      i <= r.passes && r.tape == Skip(Times(r.passes - i, CountTrue(mask)), tape)
  {
    if i < times && StillMatching(s, mask, conds) {
      var p := Pass(s, mask, 0, min, max, tape);
      PassTape(s, mask, 0, min, max, tape);
      assert mask[0..] == mask;
      PassesTape(p.out, mask, conds, times, i + 1, min, max, p.tape);
      var r := Passes(p.out, mask, conds, times, i + 1, min, max, p.tape);
      var n := r.passes - (i + 1);
      assert r.passes - i == n + 1;
    }
  }

  /** `reroll` runs at most `times` passes, none when `times <= 0` or no slot
      matches, and then changes nothing; when it stops before `times` passes
      no slot of the batch still matches; the slot count never changes. */
  lemma RerollPasses(s: seq<Slot>, times: int, conds: seq<Conditional>, min: int, max: int, tape: Tape)
    ensures var c := WithDefault(conds, min);
      var r := RerollSlots(s, times, conds, min, max, tape);
      && |r.slots| == |s|
      && r.passes <= (if times < 0 then 0 else times)
      && (r.passes == 0 <==> times <= 0 || forall j :: 0 <= j < |s| ==> !Matches(s[j].value, c))
      && (r.passes == 0 ==> r.slots == s && r.tape == tape)
      && (r.passes < times ==> forall j :: 0 <= j < |s| && Matches(s[j].value, c) ==> !Matches(r.slots[j].value, c))
  {
    var c := WithDefault(conds, min);
    var mask := Selection(s, c);
    var r := RerollSlots(s, times, conds, min, max, tape);
    PassesStop(s, mask, c, times, 0, min, max, tape);
    if 0 < times && exists j :: 0 <= j < |s| && Matches(s[j].value, c) {
      assert StillMatching(s, mask, c);
    }
    if r.passes < times {
      assert !StillMatching(r.slots, mask, c);
    }
  }

  /** The passes `reroll` runs: it ends in the state its `r.passes` passes
      reach, and it runs each of them only while some slot of the batch still
      matches, so `r.passes` is the first count that reaches `times` or
      leaves no batch slot matching. */
  lemma RerollLoop(s: seq<Slot>, times: int, conds: seq<Conditional>, min: int, max: int, tape: Tape)
    ensures var c := WithDefault(conds, min);
      var mask := Selection(s, c);
      var r := RerollSlots(s, times, conds, min, max, tape);
      && Drawn(r.slots, r.tape) == AfterPasses(s, mask, r.passes, min, max, tape)
      && (forall k :: 0 <= k < r.passes ==> StillMatching(AfterPasses(s, mask, k, min, max, tape).out, mask, c))
      && (r.passes < times ==> !StillMatching(r.slots, mask, c))
  {
    var c := WithDefault(conds, min);
    PassesStop(s, Selection(s, c), c, times, 0, min, max, tape);
  }

  /** A slot that did not match at the start is untouched; once a pass ran,
      every slot that did carries `r`, a value in the face range and its old
      `usable` and `display`; each pass takes one draw per batch slot. */
  lemma RerollSlotsChanged(s: seq<Slot>, times: int, conds: seq<Conditional>, min: int, max: int, tape: Tape)
    ensures var c := WithDefault(conds, min);
      var r := RerollSlots(s, times, conds, min, max, tape);
      && (forall j :: 0 <= j < |s| && !Matches(s[j].value, c) ==> r.slots[j] == s[j])
      && (r.passes > 0 ==> forall j :: 0 <= j < |s| && Matches(s[j].value, c) ==>
            && r.slots[j].usable == s[j].usable && r.slots[j].shown == s[j].shown
            && 'r' in r.slots[j].marks && InDrawRange(r.slots[j].value, min, max))
      && r.tape == Skip(r.passes * CountTrue(Selection(s, c)), tape)
  {
    var c := WithDefault(conds, min);
    var mask := Selection(s, c);
    var r := Passes(s, mask, c, times, 0, min, max, tape);
    PassesFrame(s, mask, c, times, 0, min, max, tape);
    forall j | 0 <= j < |s| && !Matches(s[j].value, c) ensures r.slots[j] == s[j] {
      assert !mask[j];
    }
    PassesRedraw(s, mask, c, times, 0, min, max, tape);
    if r.passes > 0 {
      forall j | 0 <= j < |s| && Matches(s[j].value, c)
        ensures && r.slots[j].usable == s[j].usable && r.slots[j].shown == s[j].shown
                && 'r' in r.slots[j].marks && InDrawRange(r.slots[j].value, min, max)
      {
        assert mask[j];
        assert r.slots[j] == Redrawn(s[j], r.slots[j].value);
      }
    }
    PassesTape(s, mask, c, times, 0, min, max, tape);
    assert r.tape == Skip(r.passes * CountTrue(mask), tape);
  }

  /** The one pass of the scenario below: both 1s are redrawn, in order. */
  lemma OnesPass(s: seq<Slot>, mask: seq<bool>)
    requires s == FreshSlots([1, 4, 1]) && mask == [true, false, true]
    ensures Pass(s, mask, 0, 1, 10, Tape([5, 2], 0)) == Drawn([Redrawn(s[0], 5), s[1], Redrawn(s[2], 2)], Tape([5, 2], 2))
  {
    var s1 := s[0 := Redrawn(s[0], 5)];
    assert Pass(s, mask, 0, 1, 10, Tape([5, 2], 0)) == Pass(s1, mask, 1, 1, 10, Tape([5, 2], 1));
    assert Pass(s1, mask, 1, 1, 10, Tape([5, 2], 1)) == Pass(s1, mask, 2, 1, 10, Tape([5, 2], 1));
    var s3 := s1[2 := Redrawn(s1[2], 2)];
    assert Pass(s1, mask, 2, 1, 10, Tape([5, 2], 1)) == Pass(s3, mask, 3, 1, 10, Tape([5, 2], 2));
    assert s3 == [Redrawn(s[0], 5), s[1], Redrawn(s[2], 2)];
  }

  /** The reroll scenario `3d10r1`: draws 1, 4, 1 and then 5, 2 give 5, 4, 2
      with `r` on slots 0 and 2, a total of 11 and one pass. */
  lemma RerollOnesOnce()
    ensures var r := RerollSlots(FreshSlots([1, 4, 1]), 1, [Conditional("=", 1)], 1, 10, Tape([5, 2], 0));
      && Values(r.slots) == [5, 4, 2]
      && r.slots[0].marks == ['r'] && r.slots[1].marks == [] && r.slots[2].marks == ['r']
      && r.passes == 1 && Total(r.slots) == 11
  {
    var s := FreshSlots([1, 4, 1]);
    var c := [Conditional("=", 1)];
    var mask := Selection(s, c);
    assert mask == [true, false, true];
    assert StillMatching(s, mask, c) by { assert mask[0] && Matches(s[0].value, c); }
    OnesPass(s, mask);
    var r := RerollSlots(s, 1, c, 1, 10, Tape([5, 2], 0));
    assert r.slots == [Redrawn(s[0], 5), s[1], Redrawn(s[2], 2)];
  }
}
