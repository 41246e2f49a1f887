/** `DiceRoller` and `StuntRoller` as a class whose methods change the
    group's slots in place, as the source's methods change the entries of
    its `results` Map. Each method is proved to leave the slots (and the
    random tape) exactly as the functions of modules Keep, Reroll, Explode,
    Combine, Success and Groups say. */
module Roller {
  import opened Common
  import opened Conditions
  import opened Random
  import opened Slots
  import opened Keep
  import opened Reroll
  import opened Explode
  import opened Combine
  import opened Success
  import opened Groups

  class DiceRoller {
    /** The source text of the group's lexeme (`lexeme.original`). */
    const original: string
    /** The literal or the dice with their normalised faces. */
    const shape: Shape
    /** Set for a `StuntRoller` (always `3d6`). */
    const stunt: bool
    /** The lexeme's conditionals. */
    const conditions: seq<Conditional>
    /** The `modifiers` Map, in insertion order. */
    var modifiers: seq<Attached>
    /** The `results` Map. */
    var results: seq<Slot>

    /** The group as a value. */
    function State(): Group
      reads this
    {
      Group(original, shape, stunt, conditions, modifiers, results)
    }

    /** `new DiceRoller(dice, lexeme)`: the constructor rolls once through
        `roll()` (which finds no modifiers yet) and then rebuilds the slots
        from the raw draws, so the conditions it applied are discarded. */
    constructor (original: string, shape: Shape, conditions: seq<Conditional>, rng: Rng)
      modifies rng
      ensures this.original == original && this.shape == shape && !stunt && this.conditions == conditions && modifiers == []
      ensures var d := RawRoll(shape, old(rng.tape)); results == FreshSlots(d.out) && rng.tape == d.tape
    {
      this.original := original;
      this.shape := shape;
      this.stunt := false;
      this.conditions := conditions;
      modifiers := [];
      results := [];
      new;
      var raw := Roll(rng);
      results := FreshSlots(raw);
    }

    /** `new StuntRoller(dice, lexeme)`: a `3d6` group. */
    constructor Stunt(original: string, conditions: seq<Conditional>, rng: Rng)
      modifies rng
      ensures this.original == original && shape == Dice(3, 1, 6) && stunt && this.conditions == conditions && modifiers == []
      ensures var d := RawRoll(shape, old(rng.tape)); results == FreshSlots(d.out) && rng.tape == d.tape
    {
      this.original := original;
      shape := Dice(3, 1, 6);
      stunt := true;
      this.conditions := conditions;
      modifiers := [];
      results := [];
      new;
      var raw := Roll(rng);
      results := FreshSlots(raw);
    }

    /** `modifiers.set(kind, modifier)`, as the stack machine does it. */
    method SetModifier(kind: Kind, mod: Modifier)
      modifies this
      ensures modifiers == Groups.SetModifier(old(modifiers), kind, mod) && results == old(results)
    {
      modifiers := Groups.SetModifier(modifiers, kind, mod);
    }

    // -------------------------------------------------------------------------
    // keepHigh / keepLow
    // -------------------------------------------------------------------------

    /** The `forEach` over the slice of the sorted slots: every slot whose
        stable rank is at or after `start` is dropped. */
    method DropRanked(start: nat, o: Order)
      modifies this
      ensures results == DropFrom(old(results), start, o)
      ensures modifiers == old(modifiers)
    {
      ghost var s0 := results;
      var vs := Values(results);
      var k := 0;
      while k < |results|
        invariant 0 <= k <= |results| == |s0|
        invariant forall i :: 0 <= i < k ==> results[i] == DropFrom(s0, start, o)[i]
        invariant forall i :: k <= i < |s0| ==> results[i] == s0[i]
        invariant modifiers == old(modifiers)
      {
        if Rank(vs, k, o) >= start {
          results := results[k := Drop(results[k])];
        }
        k := k + 1;
      }
    }

    /** `keepHigh(drop)`. */
    method KeepHigh(n: int)
      modifies this
      ensures results == (if shape.Literal? then old(results) else KeepHighSlots(old(results), n))
      ensures modifiers == old(modifiers)
    {
      if shape.Literal? {
        return;
      }
      DropRanked(SliceStart(n, |results|), Descending);
    }

    /** `keepLow(drop)`. */
    method KeepLow(n: int)
      modifies this
      ensures results == (if shape.Literal? then old(results) else KeepLowSlots(old(results), n))
      ensures modifiers == old(modifiers)
    {
      if shape.Literal? {
        return;
      }
      DropRanked(SliceStart(n - |results|, |results|), Ascending);
    }

    // -------------------------------------------------------------------------
    // reroll
    // -------------------------------------------------------------------------

    /** `reroll(times, conditionals)`. */
    method Reroll(times: int, conds: seq<Conditional>, rng: Rng)
      modifies this, rng
      ensures shape.Literal? ==> results == old(results) && rng.tape == old(rng.tape)
      ensures shape.Dice? ==>
        var r := RerollSlots(old(results), times, conds, shape.min, shape.max, old(rng.tape));
        results == r.slots && rng.tape == r.tape
      ensures modifiers == old(modifiers)
    {
      if shape.Literal? {
        return;
      }
      var min, max := shape.min, shape.max;
      var c := WithDefault(conds, min);
      var mask := Selection(results, c);
      ghost var s0, t0 := results, rng.tape;
      var i := 0;
      while i < times && StillMatching(results, mask, c)
        invariant |results| == |s0|
        invariant Passes(results, mask, c, times, i, min, max, rng.tape) == Passes(s0, mask, c, times, 0, min, max, t0)
        invariant modifiers == old(modifiers)
        decreases times - i
      {
        i := i + 1;
        RedrawBatch(mask, min, max, rng);
      }
    }

    /** One pass of the `while` loop of `reroll`: `toReroll.map(...)` redraws
        every slot of the batch, in slot order. */
    method RedrawBatch(mask: seq<bool>, min: int, max: int, rng: Rng)
      requires |mask| == |results|
      modifies this, rng
      ensures var p := Pass(old(results), mask, 0, min, max, old(rng.tape));
        results == p.out && rng.tape == p.tape
      ensures modifiers == old(modifiers)
    {
      ghost var s0, t0 := results, rng.tape;
      var k := 0;
      while k < |results|
        invariant k <= |results| == |s0|
        invariant Pass(results, mask, k, min, max, rng.tape) == Pass(s0, mask, 0, min, max, t0)
        invariant modifiers == old(modifiers)
      {
        if mask[k] {
          var v := rng.Between(min, max);
          results := results[k := Redrawn(results[k], v)];
        }
        k := k + 1;
      }
    }

    // -------------------------------------------------------------------------
    // explode
    // -------------------------------------------------------------------------

    /** `explode(times, conditionals)`: the `forEach` over `toExplode` with
        the count `inserted` of slots added so far, so that the slot that was
        at `key` is now at `key + inserted`. */
    method Explode(times: int, conds: seq<Conditional>, rng: Rng)
      modifies this, rng
      ensures shape.Literal? ==> results == old(results) && rng.tape == old(rng.tape)
      ensures shape.Dice? ==>
        var d := ExplodeAll(old(results), times, conds, shape.min, shape.max, old(rng.tape));
        results == d.out && rng.tape == d.tape
      ensures modifiers == old(modifiers)
    {
      if shape.Literal? {
        return;
      }
      var min, max := shape.min, shape.max;
      var c := WithDefault(conds, max);
      var toExplode := Selection(results, c);
      ghost var s0, t0 := results, rng.tape;
      var n := |results|;
      var inserted := 0;
      var key := 0;
      ghost var pre := Drawn([], t0);
      assert s0[..0] == [] && results == pre.out + s0[0..];
      while key < n
        invariant key <= n == |s0|
        invariant pre == ExplodeSlots(s0[..key], times, c, min, max, t0)
        invariant results == pre.out + s0[key..] && rng.tape == pre.tape && inserted == |pre.out| - key
        invariant modifiers == old(modifiers)
      {
        ghost var ch := Chain(s0[key], s0[key].value, 0, times, c, min, max, pre.tape);
        ExplodeStep(s0, key, times, c, min, max, t0);
        var i := ExplodeKey(key, inserted, toExplode[key], times, c, min, max, rng, s0, pre);
        inserted := inserted + i;
        pre := Drawn(pre.out + ch.out, ch.tape);
        key := key + 1;
      }
      assert s0[..n] == s0;
    }

    /** The turn of the `forEach` for the slot that was at `key`: the slots
        before it have become `pre.out`, so it is now at `key + inserted`. */
    method ExplodeKey(key: nat, inserted: nat, go: bool, times: int, c: seq<Conditional>, min: int, max: int,
                      rng: Rng, ghost s0: seq<Slot>, ghost pre: Drawn<seq<Slot>>)
      returns (i: nat)
      requires key < |s0| && go == Matches(s0[key].value, c)
      requires results == pre.out + s0[key..] && rng.tape == pre.tape && key + inserted == |pre.out|
      modifies this, rng
      ensures var ch := Chain(s0[key], s0[key].value, 0, times, c, min, max, pre.tape);
        results == (pre.out + ch.out) + s0[key + 1..] && rng.tape == ch.tape && i == |ch.out| - 1
      ensures modifiers == old(modifiers)
    {
      ghost var ch := Chain(s0[key], s0[key].value, 0, times, c, min, max, pre.tape);
      Around(pre.out, s0, key);
      Behind(pre.out, ch.out, s0, key);
      if go {
        i := ExplodeChain(key + inserted, times, c, min, max, rng);
      } else {
        i := 0;
        assert ch.out == [s0[key]];
      }
    }

    /** The `while` loop for the slot at position `p`: mark the newest slot
        `!`, draw, insert the draw right after it (`_insertIntoMap` shifts
        the later slots up), and go on while the draw matches. Returns the
        number of slots inserted. */
    method ExplodeChain(p: nat, times: int, c: seq<Conditional>, min: int, max: int, rng: Rng) returns (i: nat)
      requires p < |results|
      modifies this, rng
      ensures var x := old(results)[p];
        var ch := Chain(x, x.value, 0, times, c, min, max, old(rng.tape));
        results == old(results)[..p] + ch.out + old(results)[p + 1..] && rng.tape == ch.tape && i == |ch.out| - 1
      ensures modifiers == old(modifiers)
    {
      ghost var a, b, x := results[..p], results[p + 1..], results[p];
      ghost var whole := Chain(x, x.value, 0, times, c, min, max, rng.tape);
      ghost var done: seq<Slot> := [];
      ghost var cur := x;
      assert results == a + done + [x] + b;
      var newRoll := results[p].value;
      i := 0;
      while i < times && Matches(newRoll, c)
        invariant |done| == i && |a| == p
        invariant results == a + done + [cur] + b
        invariant var ch := Chain(cur, newRoll, i, times, c, min, max, rng.tape);
          done + ch.out == whole.out && ch.tape == whole.tape
        invariant modifiers == old(modifiers)
        decreases times - i
      {
        ChainTurn(done, cur, newRoll, i, times, c, min, max, rng.tape, whole);
        newRoll := MarkAndDraw(a, done, cur, b, p + i, min, max, rng);
        done := done + [Exploded(cur)];
        cur := Fresh(newRoll);
        i := i + 1;
      }
      ChainEnd(done, cur, newRoll, i, times, c, min, max, rng.tape, whole);
    }

    /** One turn of that loop: `previous.modifiers.add("!")` on slot `q`
        (the last of `a + d + [x]`), the draw, and the new slot inserted
        right after the marked one. */
    method MarkAndDraw(ghost a: seq<Slot>, ghost d: seq<Slot>, ghost x: Slot, ghost b: seq<Slot>,
                       q: nat, min: int, max: int, rng: Rng) returns (v: int)
      requires results == a + d + [x] + b && q == |a| + |d|
      modifies this, rng
      ensures v == Next(old(rng.tape), min, max) && rng.tape == Rest(old(rng.tape))
      ensures results == a + (d + [Exploded(x)]) + [Fresh(v)] + b
      ensures modifiers == old(modifiers)
    {
      results := results[q := Exploded(results[q])];
      v := rng.Between(min, max);
      results := results[..q + 1] + [Fresh(v)] + results[q + 1..];
      assert results[..q + 1] == old(results)[..q] + [Exploded(x)];
      MarkAndInsert(a, d, x, Exploded(x), Fresh(v), b);
    }

    // -------------------------------------------------------------------------
    // explodeAndCombine
    // -------------------------------------------------------------------------

    /** `explodeAndCombine(times, conditionals)`: the `forEach` over
        `toExplode`, with the one counter `i` shared by all of them. */
    method ExplodeAndCombine(times: int, conds: seq<Conditional>, rng: Rng)
      modifies this, rng
      ensures shape.Literal? ==> results == old(results) && rng.tape == old(rng.tape)
      ensures shape.Dice? ==>
        var r := CombineAll(old(results), times, conds, shape.min, shape.max, old(rng.tape));
        results == r.slots && rng.tape == r.tape
      ensures modifiers == old(modifiers)
    {
      if shape.Literal? {
        return;
      }
      var c := WithDefault(conds, shape.max);
      CombineSelected(times, c, shape.min, shape.max, rng);
    }

    /** The `forEach` over the slots, combining into those that match. */
    method CombineSelected(times: int, c: seq<Conditional>, min: int, max: int, rng: Rng)
      modifies this, rng
      ensures var r := CombineSlots(old(results), times, c, min, max, old(rng.tape));
        results == r.slots && rng.tape == r.tape
      ensures modifiers == old(modifiers)
    {
      var toExplode := Selection(results, c);
      ghost var s0, t0 := results, rng.tape;
      var n := |results|;
      var i := 0;
      var key := 0;
      ghost var pre := Combined([], 0, t0);
      assert s0[..0] == [] && results == pre.slots + s0[0..];
      while key < n
        invariant key <= n == |s0|
        invariant pre == CombineSlots(s0[..key], times, c, min, max, t0)
        invariant results == pre.slots + s0[key..] && rng.tape == pre.tape && i == pre.count
        invariant modifiers == old(modifiers)
      {
        i := CombineNext(key, i, toExplode[key], times, c, min, max, rng, s0, pre);
        pre := CombineSlots(s0[..key + 1], times, c, min, max, t0);
        CombineStep(s0, key, times, c, min, max, t0);
        key := key + 1;
      }
      assert s0[..n] == s0;
    }

    /** One turn of the `forEach`: slot `key` is combined into when it was
        selected and left alone otherwise. */
    method CombineNext(key: nat, i: nat, picked: bool, times: int, c: seq<Conditional>, min: int, max: int,
                       rng: Rng, ghost s0: seq<Slot>, ghost pre: Combined)
      returns (i': nat)
      requires key < |s0| && picked == Matches(s0[key].value, c)
      requires results == pre.slots + s0[key..] && rng.tape == pre.tape && i == pre.count && |pre.slots| == key
      modifies this, rng
      ensures var b := CombineOne(s0[key], pre.count, times, c, min, max, pre.tape);
        var post := if picked then Combined(pre.slots + [b.slot], b.count, b.tape)
                    else Combined(pre.slots + [s0[key]], pre.count, pre.tape);
        results == post.slots + s0[key + 1..] && rng.tape == post.tape && i' == post.count
      ensures modifiers == old(modifiers)
    {
      Around(pre.slots, s0, key);
      ghost var b := CombineOne(s0[key], pre.count, times, c, min, max, pre.tape);
      if picked {
        i' := CombineInto(key, i, times, c, min, max, rng);
        Behind(pre.slots, [b.slot], s0, key);
      } else {
        i' := i;
        Behind(pre.slots, [s0[key]], s0, key);
      }
    }

    /** One slot of `toExplode`: the unconditional draw, the mark `!`, then
        the inner `while` loop, all added into the slot at `key`. */
    method CombineInto(key: nat, i0: nat, times: int, c: seq<Conditional>, min: int, max: int, rng: Rng)
      returns (i: nat)
      requires key < |results|
      modifies this, rng
      ensures var b := CombineOne(old(results)[key], i0, times, c, min, max, old(rng.tape));
        results == old(results)[key := b.slot] && rng.tape == b.tape && i == b.count
      ensures modifiers == old(modifiers)
    {
      ghost var s0 := results;
      ghost var whole := CombineOne(results[key], i0, times, c, min, max, rng.tape);
      var newRoll := rng.Between(min, max);
      i := i0 + 1;
      results := results[key := Absorb(Exploded(results[key]), newRoll)];
      while i < times && Matches(newRoll, c)
        invariant key < |results| && results == s0[key := results[key]]
        invariant Boost(results[key], newRoll, i, times, c, min, max, rng.tape) == whole
        invariant modifiers == old(modifiers)
        decreases times - i
      {
        i := i + 1;
        newRoll := rng.Between(min, max);
        results := results[key := Absorb(results[key], newRoll)];
      }
    }

    // -------------------------------------------------------------------------
    // applyConditions
    // -------------------------------------------------------------------------

    /** `applyConditions()`; the source runs it on static groups as well. */
    method ApplyConditions()
      modifies this
      ensures results == Judged(old(results), conditions)
      ensures modifiers == old(modifiers)
    {
      ghost var s0 := results;
      var k := 0;
      while k < |results|
        invariant 0 <= k <= |results| == |s0|
        invariant forall i :: 0 <= i < k ==> results[i] == Judge(s0[i], conditions)
        invariant forall i :: k <= i < |s0| ==> results[i] == s0[i]
        invariant modifiers == old(modifiers)
      {
        results := results[k := Judge(results[k], conditions)];
        k := k + 1;
      }
    }

    // -------------------------------------------------------------------------
    // _roll
    // -------------------------------------------------------------------------

    /** `_roll()`: the literal, or one draw per die. */
    method Draw(rng: Rng) returns (raw: seq<int>)
      modifies rng
      ensures var d := RawRoll(shape, old(rng.tape)); raw == d.out && rng.tape == d.tape
    {
      if shape.Literal? {
        return [shape.n];
      }
      var rolls, min, max := shape.rolls, shape.min, shape.max;
      ghost var t0 := rng.tape;
      raw := [];
      var k := 0;
      while k < rolls
        invariant k <= rolls
        invariant rng.tape == Skip(k, t0)
        invariant raw == Draws(k, min, max, t0)
      {
        DrawsSnoc(k, min, max, t0);
        var v := rng.Between(min, max);
        raw := raw + [v];
        k := k + 1;
      }
    }

    // -------------------------------------------------------------------------
    // applyModifier and roll
    // -------------------------------------------------------------------------

    /** `applyModifier(type, modifier)`. */
    method ApplyModifier(kind: Kind, mod: Modifier, rng: Rng)
      modifies this, rng
      ensures var d := Applied(shape, Attached(kind, mod), old(results), old(rng.tape));
        results == d.out && rng.tape == d.tape
      ensures modifiers == old(modifiers)
    {
      match kind
      case Kh => KeepHigh(mod.data);
      case Kl => KeepLow(mod.data);
      case Bang => Explode(mod.data, mod.conditionals, rng);
      case BangBang => ExplodeAndCombine(mod.data, mod.conditionals, rng);
      case R => Reroll(mod.data, mod.conditionals, rng);
    }

    /** `roll()`: fresh slots from `_roll`, every attached modifier in Map
        order, then the conditions if there are any; returns the raw draws. */
    method Roll(rng: Rng) returns (raw: seq<int>)
      modifies this, rng
      ensures var r := RollGroup(old(State()), old(rng.tape));
        raw == r.raw && results == r.slots && rng.tape == r.tape
      ensures modifiers == old(modifiers)
    {
      raw := Draw(rng);
      results := FreshSlots(raw);
      ghost var s1, t1 := results, rng.tape;
      var k := 0;
      while k < |modifiers|
        invariant k <= |modifiers| && modifiers == old(modifiers)
        invariant ApplyFrom(shape, modifiers, k, results, rng.tape) == ApplyFrom(shape, modifiers, 0, s1, t1)
      {
        ApplyModifier(modifiers[k].kind, modifiers[k].mod, rng);
        k := k + 1;
      }
      if conditions != [] {
        ApplyConditions();
      }
    }

    // -------------------------------------------------------------------------
    // display
    // -------------------------------------------------------------------------

    /** The `display` getter of the group's class. */
    method DisplayText() returns (text: string)
      ensures text == Display(State())
    {
      if stunt {
        text := StuntDisplay();
      } else if shape.Literal? {
        text := IntToString(shape.n);
      } else {
        text := Render(results);
      }
    }

    // -------------------------------------------------------------------------
    // StuntRoller.display
    // -------------------------------------------------------------------------

    /** The `for` loop of `StuntRoller.display`: the bare values, slot 0
        suffixed `S` when `doubles` holds. */
    method StuntDisplay() returns (text: string)
      ensures text == StuntRender(results)
    {
      ghost var all := StuntShown(results, Doubles(results));
      var str: seq<string> := [];
      var k := 0;
      while k < |results|
        invariant k <= |results|
        invariant str == all[..k]
      {
        assert all[..k + 1] == all[..k] + [all[k]];
        var shown := IntToString(results[k].value);
        assert all[k] == shown + (if k == 0 && Doubles(results) then "S" else "");
        if k == 0 && Doubles(results) {
          str := str + [shown + "S"];
        } else {
          assert shown + "" == shown;
          str := str + [shown];
        }
        k := k + 1;
      }
      assert str == all;
      text := "[" + Join(str, ", ") + "]";
    }
  }
}
