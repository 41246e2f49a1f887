/** `StackRoller` as a class: its `stack`, `dice`, `stunted`, `result` and
    `_tooltip` fields, the `roll()` loop over the lexemes and the `tooltip`,
    `toResult` and `applyResult` members. Each method is proved to leave the
    fields, the groups and the random tape as the functions of module
    Postfix say. */
module Stack {
  import opened Common
  import opened Random
  import opened Slots
  import opened Groups
  import opened Roller
  import opened Postfix

  /** The groups of `ds` as values. */
  function StatesOf(ds: seq<DiceRoller>): (gs: seq<Group>)
    reads ds
    ensures |gs| == |ds| && forall i :: 0 <= i < |ds| ==> gs[i] == ds[i].State()
  {
    seq(|ds|, i requires 0 <= i < |ds| reads ds => ds[i].State())
  }

  class StackRoller {
    /** The source text of the whole expression. */
    const original: string
    /** Its lexemes in postfix order. */
    const lexemes: seq<Lexeme>
    /** The operand stack; it persists from one `roll()` to the next. */
    var stack: seq<Entry>
    /** The group built for each `dice`/`stunt` lexeme position. */
    var dice: seq<DiceRoller>
    var stunted: string
    /** `result`, `None` until the first roll. */
    var result: Option<int>
    /** `_tooltip`; the empty text stands for `null` (both are falsy). */
    var cache: string

    /** The groups are distinct objects and the stack names only them. */
    ghost predicate Valid()
      reads this
    {
      (forall i, j :: 0 <= i < j < |dice| ==> dice[i] != dice[j]) &&
      (forall j :: 0 <= j < |stack| ==> (stack[j].Ref? ==> stack[j].i < |dice|))
    }

    /** The groups as values. */
    function States(): (gs: seq<Group>)
      reads this, dice
      ensures gs == StatesOf(dice)
    {
      StatesOf(dice)
    }

    /** The machine state with `index` and the random tape. */
    function Current(index: nat, rng: Rng): Machine
      reads this, dice, rng
    {
      Machine(stack, StatesOf(dice), index, stunted, rng.tape)
    }

    constructor (original: string, lexemes: seq<Lexeme>)
      ensures this.original == original && this.lexemes == lexemes
      ensures stack == [] && dice == [] && stunted == "" && result == None && cache == ""
      ensures Valid()
    {
      this.original := original;
      this.lexemes := lexemes;
      stack := [];
      dice := [];
      stunted := "";
      result := None;
      cache := "";
    }

    // -------------------------------------------------------------------------
    // roll
    // -------------------------------------------------------------------------

    /** `roll()`: the loop over the lexemes, then the final pop. A lexeme
        that throws ends the roll with `ok` false, leaving `result` and
        `_tooltip` as they were. */
    method Roll(rng: Rng) returns (ok: bool)
      requires Valid()
      modifies this, rng, set d | d in dice
      ensures Valid()
      ensures var e := Evaluate(old(stack), old(States()), lexemes, old(rng.tape));
        && ok == e.result.Some?
        && Current(e.m.index, rng) == e.m
        && (ok ==> result == e.result && cache == "")
        && (!ok ==> result == old(result) && cache == old(cache))
    {
      stunted := "";
      assert Current(0, rng) == Start(old(stack), old(States()), old(rng.tape));
      var index;
      index, ok := Lexemes(rng);
      if ok {
        ok := Finish(index, rng);
      }
    }

    /** The loop over the lexemes, from `index` 0. */
    method Lexemes(rng: Rng) returns (index: nat, ok: bool)
      requires Valid() && Sound(Current(0, rng))
      modifies this, rng, set d | d in dice
      ensures Valid() && index <= |dice|
      ensures forall d :: d in dice ==> d in old(dice) || fresh(d)
      ensures result == old(result) && cache == old(cache)
      ensures var o := Run(old(Current(0, rng)), lexemes, 0);
        ok == o.ok && Current(index, rng) == o.m
    {
      index := 0;
      ok := true;
      ghost var m0 := Current(0, rng);
      ghost var m := m0;
      var k := 0;
      while k < |lexemes|
        invariant Valid() && index <= |dice| && k <= |lexemes|
        invariant forall d :: d in dice ==> d in old(dice) || fresh(d)
        invariant result == old(result) && cache == old(cache)
        invariant Sound(m) && Current(index, rng) == m
        invariant Run(m, lexemes, k) == Run(m0, lexemes, 0)
      {
        ghost var o := Postfix.Step(m, lexemes[k]);
        index, ok := Step(lexemes[k], index, rng);
        if !ok {
          return;
        }
        m := o.m;
        k := k + 1;
      }
    }

    /** After the loop: pop the final entry, roll it, take its `result` and
        clear `_tooltip`. */
    method Finish(index: nat, rng: Rng) returns (ok: bool)
      requires Valid() && index <= |dice|
      modifies this, rng, dice
      ensures Valid() && dice == old(dice)
      ensures var e := Postfix.Finish(old(Current(index, rng)));
        && ok == e.result.Some?
        && Current(index, rng) == e.m
        && (ok ==> result == e.result && cache == "")
        && (!ok ==> result == old(result) && cache == old(cache))
    {
      ghost var m := Current(index, rng);
      PopSound(m);
      var p := Pop(stack);
      stack := p.rest;
      assert Current(index, rng) == m.(stack := p.rest);
      ok := RollEntry(p.top, index, rng);
      ghost var o := Postfix.RollEntry(m.(stack := p.rest), p.top);
      assert Current(index, rng) == o.m;
      if ok {
        result := Option.Some(Value(Current(index, rng), p.top));
        cache := "";
      }
    }

    /** One turn of the loop over the lexemes. */
    method Step(lx: Lexeme, index: nat, rng: Rng) returns (index': nat, ok: bool)
      requires Valid() && index <= |dice|
      modifies this, rng, set d | d in dice
      ensures Valid() && index' <= |dice|
      ensures forall d :: d in dice ==> d in old(dice) || fresh(d)
      ensures result == old(result) && cache == old(cache)
      ensures var o := Postfix.Step(old(Current(index, rng)), lx);
        ok == o.ok && Current(index', rng) == o.m
    {
      if IsGroupLexeme(lx) {
        index', ok := Push(lx, index, rng);
      } else if lx.OperatorLexeme? {
        ok := Fold(lx.op, index, rng);
        index' := index;
      } else {
        ok := Attach(lx, index, rng);
        index' := index;
      }
    }

    /** A `dice` or `stunt` lexeme. */
    method Push(lx: Lexeme, index: nat, rng: Rng) returns (index': nat, ok: bool)
      requires Valid() && index <= |dice| && IsGroupLexeme(lx)
      modifies this, rng
      ensures Valid() && index' <= |dice|
      ensures forall d :: d in dice ==> d in old(dice) || fresh(d)
      ensures result == old(result) && cache == old(cache)
      ensures var o := PushGroup(old(Current(index, rng)), lx);
        ok == o.ok && Current(index', rng) == o.m
    {
      ghost var m := Current(index, rng);
      if index < |dice| {
        stack := stack + [Ref(index)];
        assert Current(index + 1, rng) == m.(stack := m.stack + [Ref(index)], index := index + 1);
        return index + 1, true;
      }
      var shape := if lx.StuntLexeme? then Option.Some(Dice(3, 1, 6)) else ShapeOf(lx.text);
      if shape.None? {
        return index, false;
      }
      ghost var before := States();
      var g: DiceRoller;
      if lx.StuntLexeme? {
        g := new DiceRoller.Stunt(lx.original, lx.conditionals, rng);
      } else {
        g := new DiceRoller(lx.original, shape.value, lx.conditionals, rng);
      }
      dice := dice + [g];
      stack := stack + [Ref(index)];
      assert States() == before + [g.State()];
      index', ok := index + 1, true;
    }

    /** A modifier lexeme, on `dice[index - 1]`. */
    method Attach(lx: Lexeme, index: nat, rng: Rng) returns (ok: bool)
      requires Valid() && index <= |dice| && (lx.KeepLexeme? || lx.RepeatLexeme?)
      modifies dice
      ensures var o := AttachModifier(old(Current(index, rng)), lx);
        ok == o.ok && Current(index, rng) == o.m
    {
      ghost var m := Current(index, rng);
      if index == 0 {
        return false;
      }
      var g := dice[index - 1];
      assert g.State() == m.dice[index - 1];
      var a := Attachment(lx, g.State());
      g.SetModifier(a.kind, a.mod);
      assert StatesOf(dice) == m.dice[index - 1 := g.State()];
      ok := true;
    }

    /** An operator lexeme. */
    method Fold(op: Operator, index: nat, rng: Rng) returns (ok: bool)
      requires Valid() && index <= |dice|
      modifies this, rng, dice
      ensures Valid() && dice == old(dice)
      ensures result == old(result) && cache == old(cache)
      ensures var o := Postfix.Fold(old(Current(index, rng)), op);
        ok == o.ok && Current(index, rng) == o.m
    {
      ghost var m := Current(index, rng);
      PopSound(m);
      var pb := Pop(stack);
      PopSound(m.(stack := pb.rest));
      var pa := Pop(pb.rest);
      var b, a := pb.top, pa.top;
      stack := pa.rest;
      assert Current(index, rng) == m.(stack := pa.rest);
      if a.Missing? {
        stack := stack + [b];
        return true;
      }
      ok := Operands(op, a, b, index, rng);
    }

    /** Roll right, then left, and push the static group of the result. */
    method Operands(op: Operator, a: Entry, b: Entry, index: nat, rng: Rng) returns (ok: bool)
      requires Valid() && index <= |dice| && (a.Ref? ==> a.i < |dice|) && (b.Ref? ==> b.i < |dice|)
      modifies this, rng, dice
      ensures Valid() && dice == old(dice)
      ensures result == old(result) && cache == old(cache)
      ensures var o := RollBoth(old(Current(index, rng)), op, a, b);
        ok == o.ok && Current(index, rng) == o.m
    {
      ghost var m := Current(index, rng);
      ok := RollEntry(b, index, rng);
      if ok {
        ok := Left(op, a, b, index, rng);
      }
    }

    /** The right operand rolled: roll the left one and push the result. */
    method Left(op: Operator, a: Entry, b: Entry, index: nat, rng: Rng) returns (ok: bool)
      requires Valid() && index <= |dice| && (a.Ref? ==> a.i < |dice|) && (b.Ref? ==> b.i < |dice|)
      modifies this, rng, dice
      ensures Valid() && dice == old(dice)
      ensures result == old(result) && cache == old(cache)
      ensures var o := RollLeft(old(Current(index, rng)), op, a, b);
        ok == o.ok && Current(index, rng) == o.m
    {
      ok := RollEntry(a, index, rng);
      if ok {
        var x := Value(Current(index, rng), a);
        var y := Value(Current(index, rng), b);
        stack := stack + [Lit(Operate(op, x, y))];
      }
    }

    /** `e.roll()` and the stunt check after it. */
    method RollEntry(e: Entry, index: nat, rng: Rng) returns (ok: bool)
      requires Valid() && index <= |dice| && (e.Ref? ==> e.i < |dice|)
      modifies this, rng, dice
      ensures Valid() && dice == old(dice)
      ensures result == old(result) && cache == old(cache)
      ensures var o := Postfix.RollEntry(old(Current(index, rng)), e);
        ok == o.ok && Current(index, rng) == o.m
    {
      match e
      case Missing =>
        ok := false;
      case Lit(_) =>
        ok := true;
      case Ref(i) =>
        var g := dice[i];
        ghost var before := States();
        var _ := g.Roll(rng);
        assert States() == before[i := g.State()];
        if g.stunt && Doubles(g.results) {
          if |g.results| == 0 {
            ok := false;
          } else {
            stunted := StuntNote(g.results[0].value);
            ok := true;
          }
        } else {
          ok := true;
        }
    }

    // -------------------------------------------------------------------------
    // tooltip, toResult, applyResult
    // -------------------------------------------------------------------------

    /** The `tooltip` getter. */
    method Tooltip() returns (text: string)
      ensures text == TooltipText(original, cache, States())
    {
      if cache != "" {
        return cache;
      }
      ghost var gs := States();
      text := original;
      var k := 0;
      while k < |dice|
        invariant k <= |dice|
        invariant Substituted(text, gs, k) == Substituted(original, gs, 0)
      {
        assert dice[k].State() == gs[k];
        var shown := dice[k].DisplayText();
        text := ReplaceFirst(text, dice[k].original, shown);
        k := k + 1;
      }
      text := original + "\n" + text;
    }

    /** `toResult()`. */
    method ToResult() returns (snap: Snapshot)
      ensures snap == Postfix.ToResult(result, TooltipText(original, cache, States()))
    {
      var t := Tooltip();
      snap := Postfix.ToResult(result, t);
    }

    /** `applyResult(result)`. */
    method ApplyResult(snap: Snapshot)
      modifies this
      ensures Saved(result, cache) == Postfix.ApplyResult(old(Saved(result, cache)), snap)
      ensures stack == old(stack) && dice == old(dice) && stunted == old(stunted)
    {
      if snap.kind != "dice" {
        return;
      }
      if snap.result.Some? && snap.result.value != 0 {
        result := snap.result;
      }
      if snap.tooltip != "" {
        cache := snap.tooltip;
      }
    }
  }
}
