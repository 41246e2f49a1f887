/** `StackRoller` as values: the postfix machine that `roll()` runs over the
    lexemes, its final pop, the `tooltip` text and the `toResult` /
    `applyResult` snapshot. The class in module Stack performs the same
    steps on `DiceRoller` objects and is proved against these functions.

    A stack entry is the group `dice[i]`, the static group an operator
    pushes (kept as its value: rolling a static group draws nothing and its
    `result` is its literal, lemma Groups.RollStatic), or `undefined`, which
    `stack.pop()` gives on an empty stack. */
module Postfix {
  import opened Common
  import opened Conditions
  import opened Random
  import opened Slots
  import opened Faces
  import opened Groups

  /** The integer operators of the `operators` record. */
  datatype Operator = Plus | Minus | Times

  function Operate(o: Operator, a: int, b: int): int {
    match o
    case Plus => a + b
    case Minus => a - b
    case Times => a * b
  }

  /** The data of a `dice` lexeme as the `DiceRoller` constructor reads it:
      an integer literal (a static group) or the captured count and faces. */
  datatype GroupText = LiteralText(n: int) | DiceText(parts: Captured)

  /** `kh`, `kl`, `dl`, `dh`. */
  datatype KeepKind = KeepHighest | KeepLowest | DropLowest | DropHighest

  /** `!`, `!!`, `r`. */
  datatype RepeatKind = Explodes | Combines | Rerolls

  /** The lexemes `roll()` handles. A keep lexeme's count is `None` when its
      data is empty; a repeat lexeme's count is `Number(data)`, 0 when empty. */
  datatype Lexeme =
    | DiceLexeme(original: string, text: GroupText, conditionals: seq<Conditional>)
    | StuntLexeme(original: string, conditionals: seq<Conditional>)
    | KeepLexeme(keep: KeepKind, count: Option<int>)
    | RepeatLexeme(repeat: RepeatKind, times: int, conditionals: seq<Conditional>)
    | OperatorLexeme(op: Operator)

  predicate IsGroupLexeme(lx: Lexeme) {
    lx.DiceLexeme? || lx.StuntLexeme?
  }

  /** A stack entry: `undefined`, the group `dice[i]`, or an operator's
      static group holding `n`. */
  datatype Entry = Missing | Ref(i: nat) | Lit(n: int)

  /** What `roll()` works on: the `stack` and `dice` fields, the local
      `index`, the `stunted` field, and the random tape. */
  datatype Machine = Machine(stack: seq<Entry>, dice: seq<Group>, index: nat, stunted: string, tape: Tape)

  /** The machine after a step; `ok` is false when the step threw a
      `TypeError` (the state it had changed so far is kept). */
  datatype Outcome = Outcome(m: Machine, ok: bool)

  /** `index` never passes the end of `dice`, and every group on the stack
      is one of `dice`. */
  predicate Sound(m: Machine) {
    m.index <= |m.dice| &&
    forall j :: 0 <= j < |m.stack| ==> (m.stack[j].Ref? ==> m.stack[j].i < |m.dice|)
  }

  predicate Names(m: Machine, e: Entry) {
    e.Ref? ==> e.i < |m.dice|
  }

  datatype Popped = Popped(top: Entry, rest: seq<Entry>)

  /** `stack.pop()`: `undefined` on an empty stack. */
  function Pop(stack: seq<Entry>): (p: Popped)
    ensures stack == [] ==> p == Popped(Missing, [])
    ensures stack != [] ==> stack == p.rest + [p.top]
  {
    if stack == [] then Popped(Missing, []) else Popped(stack[|stack| - 1], stack[..|stack| - 1])
  }

  /** The `stunted` text for a stunt group whose first slot holds `v`. */
  function StuntNote(v: int): string {
    " - " + IntToString(v) + " Stunt Points"
  }

  /** `e.roll()` and the stunt check that follows it: a group is rolled in
      place; a stunt group with doubles sets `stunted` from its first slot.
      Rolling `undefined` throws. */
  function RollEntry(m: Machine, e: Entry): (o: Outcome)
    requires Sound(m) && Names(m, e)
    ensures Sound(o.m) && |o.m.dice| == |m.dice| && o.m.stack == m.stack && o.m.index == m.index
  {
    match e
    case Missing => Outcome(m, false)
    case Lit(_) => Outcome(m, true)
    case Ref(i) =>
      var g := m.dice[i];
      var r := RollGroup(g, m.tape);
      var m1 := m.(dice := m.dice[i := g.(slots := r.slots)], tape := r.tape);
      if g.stunt && Doubles(r.slots) then
        if |r.slots| == 0 then Outcome(m1, false)
        else Outcome(m1.(stunted := StuntNote(r.slots[0].value)), true)
      else Outcome(m1, true)
  }

  /** `e.result`. */
  function Value(m: Machine, e: Entry): int
    requires Names(m, e)
  {
    match e
    case Missing => 0
    case Lit(n) => n
    case Ref(i) => Result(m.dice[i])
  }

  // ---------------------------------------------------------------------------
  // One lexeme
  // ---------------------------------------------------------------------------

  /** The shape the `DiceRoller` constructor settles on; `None` when the count
      is negative, where `Array(rolls)` throws. */
  function ShapeOf(t: GroupText): Option<Shape> {
    match t
    case LiteralText(n) => Option.Some(Literal(n))
    case DiceText(c) =>
      var f := Normalise(c);
      if f.rolls < 0 then None else Option.Some(Dice(f.rolls, f.min, f.max))
  }

  /** A group as its constructor leaves it: no modifiers, fresh slots from
      one `_roll`. */
  function NewGroup(original: string, shape: Shape, stunt: bool, conds: seq<Conditional>, tape: Tape): Drawn<Group> {
    var d := RawRoll(shape, tape);
    Drawn(Group(original, shape, stunt, conds, [], FreshSlots(d.out)), d.tape)
  }

  /** A `dice` or `stunt` lexeme: build the group only when `dice[index]` is
      empty, push `dice[index]`, advance `index`. */
  function PushGroup(m: Machine, lx: Lexeme): (o: Outcome)
    requires Sound(m) && IsGroupLexeme(lx)
    ensures Sound(o.m)
  {
    var pushed := m.(stack := m.stack + [Ref(m.index)], index := m.index + 1);
    if m.index < |m.dice| then Outcome(pushed, true)
    else
      var shape := if lx.StuntLexeme? then Option.Some(Dice(3, 1, 6)) else ShapeOf(lx.text);
      match shape
      case None => Outcome(m, false)
      case Some(sh) =>
        var d := NewGroup(lx.original, sh, lx.StuntLexeme?, lx.conditionals, m.tape);
        Outcome(pushed.(dice := m.dice + [d.out], tape := d.tape), true)
  }

  /** The entry a modifier lexeme stores in the `modifiers` Map of the group
      it is attached to: `dl`/`dh` become `kh`/`kl` of the slot count minus
      the count; a missing keep count is 1, a repeat count of 0 is 1. */
  function Attachment(lx: Lexeme, g: Group): Attached
    requires lx.KeepLexeme? || lx.RepeatLexeme?
  {
    match lx
    case KeepLexeme(keep, count) =>
      var n := if count.Some? then count.value else 1;
      (match keep
       case KeepHighest => Attached(Kh, Modifier(n, []))
       case KeepLowest => Attached(Kl, Modifier(n, []))
       case DropLowest => Attached(Kh, Modifier(|g.slots| - n, []))
       case DropHighest => Attached(Kl, Modifier(|g.slots| - n, [])))
    case RepeatLexeme(repeat, times, conds) =>
      var n := if times == 0 then 1 else times;
      (match repeat
       case Explodes => Attached(Bang, Modifier(n, conds))
       case Combines => Attached(BangBang, Modifier(n, conds))
       case Rerolls => Attached(R, Modifier(n, conds)))
  }

  /** A modifier lexeme: `dice[index - 1].modifiers.set(...)`, which throws
      when no group has been seen yet. */
  function AttachModifier(m: Machine, lx: Lexeme): (o: Outcome)
    requires Sound(m) && (lx.KeepLexeme? || lx.RepeatLexeme?)
    ensures Sound(o.m)
  {
    if m.index == 0 then Outcome(m, false)
    else
      var g := m.dice[m.index - 1];
      var a := Attachment(lx, g);
      Outcome(m.(dice := m.dice[m.index - 1 := g.(modifiers := SetModifier(g.modifiers, a.kind, a.mod))]), true)
  }

  /** Popping keeps the machine sound and gives an entry it names. */
  lemma PopSound(m: Machine)
    requires Sound(m)
    ensures var p := Pop(m.stack);
      Names(m, p.top) && Sound(m.(stack := p.rest))
  {
    if m.stack != [] {
      assert m.stack[|m.stack| - 1] == Pop(m.stack).top;
    }
  }

  /** Right is rolled, then left, and the static group holding `left op
      right` is pushed. */
  function RollBoth(m: Machine, op: Operator, a: Entry, b: Entry): (o: Outcome)
    requires Sound(m) && Names(m, a) && Names(m, b)
    ensures Sound(o.m)
  {
    var o1 := RollEntry(m, b);
    if !o1.ok then o1 else RollLeft(o1.m, op, a, b)
  }

  /** The right operand rolled: roll the left one and push the static
      group of the result. */
  function RollLeft(m: Machine, op: Operator, a: Entry, b: Entry): (o: Outcome)
    requires Sound(m) && Names(m, a) && Names(m, b)
    ensures Sound(o.m)
  {
    var o2 := RollEntry(m, a);
    if !o2.ok then o2
    else Outcome(o2.m.(stack := o2.m.stack + [Lit(Operate(op, Value(o2.m, a), Value(o2.m, b)))]), true)
  }

  /** An operator: pop right, then left. Without a left operand the right
      one is pushed back as it was; otherwise both are combined. */
  function Fold(m: Machine, op: Operator): (o: Outcome)
    requires Sound(m)
    ensures Sound(o.m)
  {
    var pb := Pop(m.stack);
    PopSound(m);
    var m1 := m.(stack := pb.rest);
    var pa := Pop(pb.rest);
    PopSound(m1);
    if pa.top.Missing? then Outcome(m.(stack := pa.rest + [pb.top]), true)
    else RollBoth(m.(stack := pa.rest), op, pa.top, pb.top)
  }

  /** One turn of the `for ... of this.lexemes` loop. */
  function Step(m: Machine, lx: Lexeme): (o: Outcome)
    requires Sound(m)
    ensures Sound(o.m)
  {
    match lx
    case DiceLexeme(_, _, _) => PushGroup(m, lx)
    case StuntLexeme(_, _) => PushGroup(m, lx)
    case KeepLexeme(_, _) => AttachModifier(m, lx)
    case RepeatLexeme(_, _, _) => AttachModifier(m, lx)
    case OperatorLexeme(op) => Fold(m, op)
  }

  /** The loop from lexeme `k` on; a lexeme that throws ends the run. */
  function Run(m: Machine, lxs: seq<Lexeme>, k: nat): (o: Outcome)
    requires Sound(m) && k <= |lxs|
    ensures Sound(o.m)
    decreases |lxs| - k
  {
    if k == |lxs| then Outcome(m, true)
    else
      var o := Step(m, lxs[k]);
      if !o.ok then o else Run(o.m, lxs, k + 1)
  }

  /** A whole `roll()`: the machine state it leaves and its `result`, `None`
      when it threw. */
  datatype Evaluation = Evaluation(m: Machine, result: Option<int>)

  /** After the loop: pop the final entry, roll it, check it for doubles,
      take its `result`. */
  function Finish(m: Machine): (e: Evaluation)
    requires Sound(m)
    ensures Sound(e.m)
  {
    var p := Pop(m.stack);
    PopSound(m);
    var o := RollEntry(m.(stack := p.rest), p.top);
    if !o.ok then Evaluation(o.m, None) else Evaluation(o.m, Option.Some(Value(o.m, p.top)))
  }

  /** The machine `roll()` starts from: the persistent `stack` and `dice`,
      `index` 0 and `stunted` cleared. */
  function Start(stack: seq<Entry>, dice: seq<Group>, tape: Tape): Machine {
    Machine(stack, dice, 0, "", tape)
  }

  /** `StackRoller.roll()`. */
  function Evaluate(stack: seq<Entry>, dice: seq<Group>, lxs: seq<Lexeme>, tape: Tape): (e: Evaluation)
    requires Sound(Start(stack, dice, tape))
    ensures Sound(e.m)
  {
    var o := Run(Start(stack, dice, tape), lxs, 0);
    if !o.ok then Evaluation(o.m, None) else Finish(o.m)
  }

  // ---------------------------------------------------------------------------
  // tooltip, toResult, applyResult
  // ---------------------------------------------------------------------------

  /** The `forEach` of `tooltip` from group `k` on: each group's source text
      replaced, first occurrence only, by its `display`. */
  function Substituted(text: string, dice: seq<Group>, k: nat): string
    requires k <= |dice|
    decreases |dice| - k
  {
    if k == |dice| then text
    else Substituted(ReplaceFirst(text, dice[k].original, Display(dice[k])), dice, k + 1)
  }

  /** The `tooltip` getter: a stored tooltip (any non-empty text) verbatim,
      else the source line over the substituted line. */
  function TooltipText(original: string, cache: string, dice: seq<Group>): string {
    if cache != "" then cache else original + "\n" + Substituted(original, dice, 0)
  }

  /** The object `toResult()` returns and `applyResult` reads. */
  datatype Snapshot = Snapshot(kind: string, result: Option<int>, tooltip: string)

  /** The `result` and `_tooltip` fields. */
  datatype Saved = Saved(result: Option<int>, cache: string)

  function ToResult(result: Option<int>, tooltip: string): Snapshot {
    Snapshot("dice", result, tooltip)
  }

  /** `applyResult`: a snapshot of another type changes nothing; `result`
      is taken only when it is a non-zero number and the tooltip only when
      it is non-empty. */
  function ApplyResult(s: Saved, snap: Snapshot): Saved {
    if snap.kind != "dice" then s
    else Saved(if snap.result.Some? && snap.result.value != 0 then snap.result else s.result,
               if snap.tooltip != "" then snap.tooltip else s.cache)
  }

  // ---------------------------------------------------------------------------
  // Properties of one lexeme
  // ---------------------------------------------------------------------------

  /** The identity of a group: what its lexeme fixed when it was built. */
  predicate SameGroup(g: Group, h: Group) {
    g.original == h.original && g.shape == h.shape && g.stunt == h.stunt && g.conditions == h.conditions
  }

  /** `dice` only grows, and every group keeps its identity. */
  predicate Keeps(m: Machine, n: Machine) {
    |n.dice| >= |m.dice| && forall i :: 0 <= i < |m.dice| ==> SameGroup(n.dice[i], m.dice[i])
  }

  /** A `dice` or `stunt` lexeme pushes `dice[index]` and advances `index`.
      An existing group is reused: nothing is built or drawn. A new group
      is built only at the end of `dice`, with no modifiers and unmarked,
      usable slots. Only a negative dice count throws. */
  lemma PushGroupSpec(m: Machine, lx: Lexeme)
    requires Sound(m) && IsGroupLexeme(lx)
    ensures var o := PushGroup(m, lx);
      && (o.ok <==> m.index < |m.dice| || lx.StuntLexeme? || ShapeOf(lx.text).Some?)
      && (o.ok ==> o.m.stack == m.stack + [Ref(m.index)] && o.m.index == m.index + 1 &&
                   o.m.dice[..|m.dice|] == m.dice && o.m.stunted == m.stunted)
      && (!o.ok ==> o.m == m)
      && (m.index < |m.dice| ==> o.m.dice == m.dice && o.m.tape == m.tape)
      && (m.index == |m.dice| && o.ok ==>
            var g := o.m.dice[m.index];
            && |o.m.dice| == |m.dice| + 1
            && g.original == lx.original && g.stunt == lx.StuntLexeme? && g.conditions == lx.conditionals
            && g.modifiers == []
            && (lx.StuntLexeme? ==> g.shape == Dice(3, 1, 6))
            && (forall j :: 0 <= j < |g.slots| ==> g.slots[j].usable && g.slots[j].marks == []))
  {
    if m.index == |m.dice| {
      var o := PushGroup(m, lx);
      if o.ok {
        assert o.m.dice == m.dice + [o.m.dice[m.index]];
      }
    }
  }

  /** A modifier lexeme changes only the `modifiers` Map of the group of the
      last `dice`/`stunt` lexeme, `dice[index - 1]`, whatever is on top of
      the stack: that kind now holds the new entry, the other kinds keep
      theirs. Before any group it throws and changes nothing. */
  lemma AttachSpec(m: Machine, lx: Lexeme)
    requires Sound(m) && (lx.KeepLexeme? || lx.RepeatLexeme?)
    requires forall i :: 0 <= i < |m.dice| ==> DistinctKinds(m.dice[i].modifiers)
    ensures var o := AttachModifier(m, lx);
      && (m.index == 0 <==> !o.ok)
      && (m.index == 0 ==> o.m == m)
      && (m.index > 0 ==>
            var g, h := m.dice[m.index - 1], o.m.dice[m.index - 1];
            var a := Attachment(lx, g);
            && o.m.stack == m.stack && o.m.tape == m.tape && o.m.index == m.index && o.m.stunted == m.stunted
            && |o.m.dice| == |m.dice|
            && (forall i :: 0 <= i < |m.dice| && i != m.index - 1 ==> o.m.dice[i] == m.dice[i])
            && h == g.(modifiers := h.modifiers)
            && DistinctKinds(h.modifiers)
            && (exists i :: 0 <= i < |h.modifiers| && h.modifiers[i] == a)
            && (forall i :: 0 <= i < |g.modifiers| && g.modifiers[i].kind != a.kind ==> h.modifiers[i] == g.modifiers[i]))
  {
    if m.index > 0 {
      var g := m.dice[m.index - 1];
      var a := Attachment(lx, g);
      SetModifierSpec(g.modifiers, a.kind, a.mod);
    }
  }

  /** `dl n` and `dh n` store a keep of the other end with the current slot
      count minus `n`; an empty count means 1. */
  lemma DropAsKeep(g: Group, count: Option<int>)
    ensures var n := if count.Some? then count.value else 1;
      && Attachment(KeepLexeme(DropLowest, count), g) == Attached(Kh, Modifier(|g.slots| - n, []))
      && Attachment(KeepLexeme(DropHighest, count), g) == Attached(Kl, Modifier(|g.slots| - n, []))
      && Attachment(KeepLexeme(KeepHighest, None), g) == Attached(Kh, Modifier(1, []))
  {
  }

  /** An operator with at most one entry below it leaves that entry as it
      was (an empty stack gets `undefined` back) and rolls nothing. */
  lemma FoldLone(m: Machine, op: Operator)
    requires Sound(m) && |m.stack| <= 1
    ensures Fold(m, op) == Outcome(m.(stack := if m.stack == [] then [Missing] else m.stack), true)
  {
  }

  /** An operator over two operator results pushes their combination
      (left `op` right) and draws nothing. */
  lemma FoldValues(m: Machine, op: Operator, s: seq<Entry>, x: int, y: int)
    requires Sound(m) && m.stack == s + [Lit(x), Lit(y)]
    ensures Fold(m, op) == Outcome(m.(stack := s + [Lit(Operate(op, x, y))]), true)
  {
    assert Pop(m.stack) == Popped(Lit(y), s + [Lit(x)]);
    assert Pop(s + [Lit(x)]) == Popped(Lit(x), s);
  }

  /** An operator over two groups rolls the right one on the current tape,
      then the left one on what remains, and pushes left `op` right from the
      rolled groups. */
  lemma FoldGroups(m: Machine, op: Operator, s: seq<Entry>, i: nat, j: nat)
    requires Sound(m) && m.stack == s + [Ref(i), Ref(j)] && i != j && i < |m.dice| && j < |m.dice|
    requires !m.dice[i].stunt && !m.dice[j].stunt
    ensures var rj := RollGroup(m.dice[j], m.tape);
      var ri := RollGroup(m.dice[i], rj.tape);
      var gi, gj := m.dice[i].(slots := ri.slots), m.dice[j].(slots := rj.slots);
      Fold(m, op) == Outcome(Machine(s + [Lit(Operate(op, Result(gi), Result(gj)))],
                                     m.dice[j := gj][i := gi], m.index, m.stunted, ri.tape), true)
  {
    assert Pop(m.stack) == Popped(Ref(j), s + [Ref(i)]);
    assert Pop(s + [Ref(i)]) == Popped(Ref(i), s);
  }

  // ---------------------------------------------------------------------------
  // Properties of a whole roll
  // ---------------------------------------------------------------------------

  /** The number of `dice` and `stunt` lexemes. */
  function GroupCount(lxs: seq<Lexeme>): nat {
    if lxs == [] then 0 else (if IsGroupLexeme(lxs[0]) then 1 else 0) + GroupCount(lxs[1..])
  }

  function Max(a: nat, b: nat): nat {
    if a < b then b else a
  }

  lemma RollEntryKeeps(m: Machine, e: Entry)
    requires Sound(m) && Names(m, e)
    ensures Keeps(m, RollEntry(m, e).m) && |RollEntry(m, e).m.dice| == |m.dice|
  {
  }

  lemma FoldKeeps(m: Machine, op: Operator)
    requires Sound(m)
    ensures var o := Fold(m, op);
      Keeps(m, o.m) && |o.m.dice| == |m.dice| && o.m.index == m.index
  {
    var pb := Pop(m.stack);
    PopSound(m);
    var pa := Pop(pb.rest);
    PopSound(m.(stack := pb.rest));
    if !pa.top.Missing? {
      RollBothKeeps(m.(stack := pa.rest), op, pa.top, pb.top);
    }
  }

  lemma RollBothKeeps(m: Machine, op: Operator, a: Entry, b: Entry)
    requires Sound(m) && Names(m, a) && Names(m, b)
    ensures var o := RollBoth(m, op, a, b);
      Keeps(m, o.m) && |o.m.dice| == |m.dice| && o.m.index == m.index
  {
    var o1 := RollEntry(m, b);
    RollEntryKeeps(m, b);
    if o1.ok {
      RollEntryKeeps(o1.m, a);
    }
  }

  lemma StepKeeps(m: Machine, lx: Lexeme)
    requires Sound(m)
    ensures var o := Step(m, lx);
      && Keeps(m, o.m)
      && (o.ok ==> o.m.index == m.index + (if IsGroupLexeme(lx) then 1 else 0) &&
                   |o.m.dice| == Max(|m.dice|, o.m.index))
  {
    match lx
    case DiceLexeme(_, _, _) => PushGroupSpec(m, lx);
    case StuntLexeme(_, _) => PushGroupSpec(m, lx);
    case KeepLexeme(_, _) =>
    case RepeatLexeme(_, _, _) =>
    case OperatorLexeme(op) => FoldKeeps(m, op);
  }

  /** The loop builds exactly one group per `dice`/`stunt` lexeme position
      that `dice` does not hold yet, and never replaces a group. */
  lemma {:induction false} RunKeeps(m: Machine, lxs: seq<Lexeme>, k: nat)
    requires Sound(m) && k <= |lxs|
    decreases |lxs| - k
    ensures var o := Run(m, lxs, k);
      && Keeps(m, o.m)
      && (o.ok ==> o.m.index == m.index + GroupCount(lxs[k..]) && |o.m.dice| == Max(|m.dice|, o.m.index))
  {
    if k == |lxs| {
      assert lxs[k..] == [];
    } else {
      var o := Step(m, lxs[k]);
      StepKeeps(m, lxs[k]);
      assert lxs[k..][0] == lxs[k] && lxs[k..][1..] == lxs[k + 1..];
      if o.ok {
        RunKeeps(o.m, lxs, k + 1);
      }
    }
  }

  /** A first `roll()` builds one group per `dice`/`stunt` lexeme; a later
      `roll()` over the same lexemes builds none and reuses every group. */
  lemma EvaluateBuildsOnce(stack: seq<Entry>, dice: seq<Group>, lxs: seq<Lexeme>, tape: Tape)
    requires Sound(Start(stack, dice, tape))
    ensures var e := Evaluate(stack, dice, lxs, tape);
      && Keeps(Start(stack, dice, tape), e.m)
      && (e.result.Some? ==> |e.m.dice| == Max(|dice|, GroupCount(lxs)))
      && (|dice| >= GroupCount(lxs) && e.result.Some? ==> |e.m.dice| == |dice|)
  {
    RunKeeps(Start(stack, dice, tape), lxs, 0);
    assert lxs[0..] == lxs;
  }

  /** `stunted` is empty or a stunt-points note. */
  ghost predicate NoteForm(s: string) {
    s == "" || exists v :: s == StuntNote(v)
  }

  lemma RollEntryNote(m: Machine, e: Entry)
    requires Sound(m) && Names(m, e) && NoteForm(m.stunted)
    ensures NoteForm(RollEntry(m, e).m.stunted)
  {
    if e.Ref? {
      var r := RollGroup(m.dice[e.i], m.tape);
      if m.dice[e.i].stunt && Doubles(r.slots) && |r.slots| > 0 {
        assert RollEntry(m, e).m.stunted == StuntNote(r.slots[0].value);
      }
    }
  }

  lemma FoldNote(m: Machine, op: Operator)
    requires Sound(m) && NoteForm(m.stunted)
    ensures NoteForm(Fold(m, op).m.stunted)
  {
    var pb := Pop(m.stack);
    var pa := Pop(pb.rest);
    if !pa.top.Missing? {
      RollEntryNote(m.(stack := pa.rest), pb.top);
      var o1 := RollEntry(m.(stack := pa.rest), pb.top);
      if o1.ok {
        RollEntryNote(o1.m, pa.top);
      }
    }
  }

  lemma StepNote(m: Machine, lx: Lexeme)
    requires Sound(m) && NoteForm(m.stunted)
    ensures NoteForm(Step(m, lx).m.stunted)
  {
    match lx
    case OperatorLexeme(op) => FoldNote(m, op);
    case DiceLexeme(_, _, _) =>
    case StuntLexeme(_, _) =>
    case KeepLexeme(_, _) =>
    case RepeatLexeme(_, _, _) =>
  }

  lemma {:induction false} RunNote(m: Machine, lxs: seq<Lexeme>, k: nat)
    requires Sound(m) && k <= |lxs| && NoteForm(m.stunted)
    decreases |lxs| - k
    ensures NoteForm(Run(m, lxs, k).m.stunted)
  {
    if k < |lxs| {
      var o := Step(m, lxs[k]);
      StepNote(m, lxs[k]);
      if o.ok {
        RunNote(o.m, lxs, k + 1);
      }
    }
  }

  /** After `roll()`, `stunted` is empty or the note of the last stunt group
      rolled with doubles. */
  lemma EvaluateNote(stack: seq<Entry>, dice: seq<Group>, lxs: seq<Lexeme>, tape: Tape)
    requires Sound(Start(stack, dice, tape))
    ensures NoteForm(Evaluate(stack, dice, lxs, tape).m.stunted)
  {
    var o := Run(Start(stack, dice, tape), lxs, 0);
    RunNote(Start(stack, dice, tape), lxs, 0);
    if o.ok {
      var p := Pop(o.m.stack);
      RollEntryNote(o.m.(stack := p.rest), p.top);
    }
  }


  /** Rolling a group sets `stunted` exactly when it is a stunt group that
      came up doubles, from the value of its first slot; otherwise the note
      is left as it was. */
  lemma RollEntryNoteExact(m: Machine, i: nat)
    requires Sound(m) && i < |m.dice|
    ensures var r := RollGroup(m.dice[i], m.tape);
      var o := RollEntry(m, Ref(i));
      o.ok ==> o.m.stunted == (if m.dice[i].stunt && Doubles(r.slots) then StuntNote(r.slots[0].value) else m.stunted)
  {
  }

  /** An operator over two groups: the right one is rolled first and the
      left one second, so a left stunt group with doubles overwrites the note
      of a right one; with neither, the note is kept. */
  lemma FoldStuntNote(m: Machine, op: Operator, s: seq<Entry>, i: nat, j: nat)
    requires Sound(m) && m.stack == s + [Ref(i), Ref(j)] && i < |m.dice| && j < |m.dice|
    ensures var rj := RollGroup(m.dice[j], m.tape);
      var ri := RollGroup(m.dice[i], rj.tape);
      var o := Fold(m, op);
      o.ok ==> o.m.stunted == (if m.dice[i].stunt && Doubles(ri.slots) then StuntNote(ri.slots[0].value)
                               else if m.dice[j].stunt && Doubles(rj.slots) then StuntNote(rj.slots[0].value)
                               else m.stunted)
  {
    assert Pop(m.stack) == Popped(Ref(j), s + [Ref(i)]);
    assert Pop(s + [Ref(i)]) == Popped(Ref(i), s);
    var m1 := m.(stack := s);
    RollEntryNoteExact(m1, j);
    var o1 := RollEntry(m1, Ref(j));
    if o1.ok {
      assert o1.m.dice[i].stunt == m.dice[i].stunt && o1.m.dice[i].shape == m.dice[i].shape
        && o1.m.dice[i].modifiers == m.dice[i].modifiers && o1.m.dice[i].conditions == m.dice[i].conditions;
      assert RollGroup(o1.m.dice[i], o1.m.tape) == RollGroup(m.dice[i], RollGroup(m.dice[j], m.tape).tape);
      RollEntryNoteExact(o1.m, i);
    }
  }

  /** The final roll of `roll()` sets the note by the same rule. */
  lemma FinishNote(m: Machine, s: seq<Entry>, i: nat)
    requires Sound(m) && m.stack == s + [Ref(i)] && i < |m.dice|
    ensures var r := RollGroup(m.dice[i], m.tape);
      var e := Finish(m);
      e.result.Some? ==> e.m.stunted == (if m.dice[i].stunt && Doubles(r.slots) then StuntNote(r.slots[0].value) else m.stunted)
  {
    assert Pop(m.stack) == Popped(Ref(i), s);
  }

  /** No group is a stunt group. */
  predicate NoStunt(dice: seq<Group>) {
    forall i :: 0 <= i < |dice| ==> !dice[i].stunt
  }

  /** No lexeme is a `stunt` lexeme. */
  predicate NoStuntLexeme(lxs: seq<Lexeme>) {
    forall k :: 0 <= k < |lxs| ==> !lxs[k].StuntLexeme?
  }

  lemma RollEntryNoStunt(m: Machine, e: Entry)
    requires Sound(m) && Names(m, e) && NoStunt(m.dice)
    ensures var o := RollEntry(m, e);
      NoStunt(o.m.dice) && o.m.stunted == m.stunted
  {
  }

  lemma StepNoStunt(m: Machine, lx: Lexeme)
    requires Sound(m) && NoStunt(m.dice) && !lx.StuntLexeme?
    ensures var o := Step(m, lx);
      NoStunt(o.m.dice) && o.m.stunted == m.stunted
  {
    match lx
    case OperatorLexeme(op) =>
      var pb := Pop(m.stack);
      PopSound(m);
      var pa := Pop(pb.rest);
      PopSound(m.(stack := pb.rest));
      if !pa.top.Missing? {
        RollEntryNoStunt(m.(stack := pa.rest), pb.top);
        var o1 := RollEntry(m.(stack := pa.rest), pb.top);
        if o1.ok {
          RollEntryNoStunt(o1.m, pa.top);
        }
      }
    case DiceLexeme(_, _, _) =>
    case KeepLexeme(_, _) =>
    case RepeatLexeme(_, _, _) =>
  }

  lemma {:induction false} RunNoStunt(m: Machine, lxs: seq<Lexeme>, k: nat)
    requires Sound(m) && k <= |lxs| && NoStunt(m.dice) && NoStuntLexeme(lxs)
    decreases |lxs| - k
    ensures var o := Run(m, lxs, k);
      NoStunt(o.m.dice) && o.m.stunted == m.stunted
  {
    if k < |lxs| {
      var o := Step(m, lxs[k]);
      StepNoStunt(m, lxs[k]);
      if o.ok {
        RunNoStunt(o.m, lxs, k + 1);
      }
    }
  }

  /** A roll with no stunt group and no `stunt` lexeme leaves the note
      empty. */
  lemma EvaluateNoStunt(stack: seq<Entry>, dice: seq<Group>, lxs: seq<Lexeme>, tape: Tape)
    requires Sound(Start(stack, dice, tape)) && NoStunt(dice) && NoStuntLexeme(lxs)
    ensures Evaluate(stack, dice, lxs, tape).m.stunted == ""
  {
    var o := Run(Start(stack, dice, tape), lxs, 0);
    RunNoStunt(Start(stack, dice, tape), lxs, 0);
  }
  // ---------------------------------------------------------------------------
  // Properties of tooltip, toResult and applyResult
  // ---------------------------------------------------------------------------

  /** Groups whose source text does not occur leave the text as it is. */
  lemma {:induction false} SubstitutedAbsent(text: string, dice: seq<Group>, k: nat)
    requires k <= |dice|
    requires forall i, j :: k <= i < |dice| ==> !OccursAt(text, dice[i].original, j)
    decreases |dice| - k
    ensures Substituted(text, dice, k) == text
  {
    if k < |dice| {
      ReplaceFirstSpec(text, dice[k].original, Display(dice[k]));
      SubstitutedAbsent(text, dice, k + 1);
    }
  }

  /** The tooltip is never empty: a stored one is returned as it is, a
      computed one starts with the source line and a line break. */
  lemma TooltipShape(original: string, cache: string, dice: seq<Group>)
    ensures var t := TooltipText(original, cache, dice);
      && t != ""
      && (cache != "" ==> t == cache)
      && (cache == "" ==> t[..|original| + 1] == original + "\n")
  {
  }

  /** `applyResult(toResult())` on any roller of the same type: the tooltip
      comes back exactly, the result whenever it is a non-zero number. A
      snapshot of another type changes nothing. */
  lemma ResultRoundTrip(result: Option<int>, original: string, cache: string, dice: seq<Group>,
                        s: Saved, original': string, dice': seq<Group>)
    ensures var t := TooltipText(original, cache, dice);
      var r := ApplyResult(s, ToResult(result, t));
      && TooltipText(original', r.cache, dice') == t
      && (result.Some? && result.value != 0 ==> r.result == result)
      && (result.None? || result.value == 0 ==> r.result == s.result)
    ensures forall snap: Snapshot :: snap.kind != "dice" ==> ApplyResult(s, snap) == s
  {
    TooltipShape(original, cache, dice);
  }

  // ---------------------------------------------------------------------------
  // An example: `1d6 + 2`
  // ---------------------------------------------------------------------------

  /** The lexemes of `1d6 + 2` in postfix order. */
  const SumLexemes: seq<Lexeme> :=
    [DiceLexeme("1d6", DiceText(Captured(1, None, Number(6))), []), DiceLexeme("2", LiteralText(2), []),
     OperatorLexeme(Plus)]

  /** The `1d6` group showing `v`, and the static group `2`. */
  function OneDie(v: int): Group {
    Group("1d6", Dice(1, 1, 6), false, [], [], [Fresh(v)])
  }

  const Two := Group("2", Literal(2), false, [], [], [Fresh(2)])

  lemma RollOneDie(slots: seq<Slot>, tape: Tape)
    ensures var v := Next(tape, 1, 6);
      RollGroup(OneDie(0).(slots := slots), tape) == Rolled([v], [Fresh(v)], Rest(tape))
  {
  }

  lemma FreshOne(v: int)
    ensures FreshSlots([v]) == [Fresh(v)]
  {
    assert [v][1..] == [];
  }

  lemma OneDieResult(v: int)
    ensures Result(OneDie(v)) == v
  {
    assert [Fresh(v)][1..] == [];
    assert Total([Fresh(v)]) == Contribution(Fresh(v)) + Total([]);
  }

  /** Building the two groups: the die draws once, the literal not at all. */
  lemma BuildSumGroups(tape: Tape)
    ensures ShapeOf(SumLexemes[0].text) == Option.Some(Dice(1, 1, 6))
    ensures NewGroup("1d6", Dice(1, 1, 6), false, [], tape) == Drawn(OneDie(Next(tape, 1, 6)), Rest(tape))
    ensures ShapeOf(SumLexemes[1].text) == Option.Some(Literal(2))
    ensures NewGroup("2", Literal(2), false, [], tape) == Drawn(Two, tape)
  {
    assert Normalise(Captured(1, None, Number(6))) == Faces(1, 1, 6);
    assert Draws(1, 1, 6, tape) == [Next(tape, 1, 6)];
    FreshOne(Next(tape, 1, 6));
    FreshOne(2);
  }

  /** The `+` and the final pop, once both groups are on the stack: the
      static group is rolled first (no draw), then the die (one draw). */
  lemma SumFold(slots: seq<Slot>, tape: Tape)
    ensures var v := Next(tape, 1, 6);
      var m := Machine([Ref(0), Ref(1)], [OneDie(0).(slots := slots), Two], 2, "", tape);
      var m3 := Machine([Lit(v + 2)], [OneDie(v), Two], 2, "", Rest(tape));
      && Run(m, SumLexemes, 2) == Outcome(m3, true)
      && Finish(m3) == Evaluation(m3.(stack := []), Option.Some(v + 2))
  {
    var v := Next(tape, 1, 6);
    var m := Machine([Ref(0), Ref(1)], [OneDie(0).(slots := slots), Two], 2, "", tape);
    RollOneDie(slots, tape);
    assert RollGroup(Two, tape) == Rolled([2], [Fresh(2)], tape);
    var m3 := Machine([Lit(v + 2)], [OneDie(v), Two], 2, "", Rest(tape));
    FoldGroups(m, Plus, [], 0, 1);
    OneDieResult(v);
    assert m.dice[1 := Two][0 := OneDie(v)] == [OneDie(v), Two];
    assert Fold(m, Plus) == Outcome(m3, true);
  }

  /** Once both groups exist, `roll()` rolls the static group, then draws the
      die once, and returns the draw plus 2; no group is built. */
  lemma SumRollAgain(slots: seq<Slot>, tape: Tape)
    ensures var v := Next(tape, 1, 6);
      Evaluate([], [OneDie(0).(slots := slots), Two], SumLexemes, tape) ==
      Evaluation(Machine([], [OneDie(v), Two], 2, "", Rest(tape)), Option.Some(v + 2))
  {
    var m0 := Start([], [OneDie(0).(slots := slots), Two], tape);
    var m1 := m0.(stack := [Ref(0)], index := 1);
    assert Step(m0, SumLexemes[0]) == Outcome(m1, true);
    assert Step(m1, SumLexemes[1]) == Outcome(m0.(stack := [Ref(0), Ref(1)], index := 2), true);
    SumFold(slots, tape);
  }

  /** The first `roll()` builds the die (one draw, which the constructor's
      roll uses and the operator's roll replaces) and the static group, so
      the result is the second draw plus 2. */
  lemma SumFirstRoll()
    ensures Evaluate([], [], SumLexemes, Tape([4, 5], 0)) ==
            Evaluation(Machine([], [OneDie(5), Two], 2, "", Tape([4, 5], 2)), Option.Some(7))
  {
    var t0 := Tape([4, 5], 0);
    var t1 := Rest(t0);
    assert Next(t0, 1, 6) == 4;
    SumBuild(t0);
    SumFold([Fresh(4)], t1);
    assert Next(t1, 1, 6) == 5;
  }

  /** The two group lexemes of a first roll build the die from one draw
      and the static group from none. */
  lemma SumBuild(t0: Tape)
    ensures var v := Next(t0, 1, 6);
      Run(Start([], [], t0), SumLexemes, 0) ==
      Run(Machine([Ref(0), Ref(1)], [OneDie(0).(slots := [Fresh(v)]), Two], 2, "", Rest(t0)), SumLexemes, 2)
  {
    var v := Next(t0, 1, 6);
    var t1 := Rest(t0);
    var m0 := Start([], [], t0);
    BuildSumGroups(t0);
    BuildSumGroups(t1);
    var m1 := Machine([Ref(0)], [OneDie(v)], 1, "", t1);
    assert Step(m0, SumLexemes[0]) == Outcome(m1, true);
    assert OneDie(v) == OneDie(0).(slots := [Fresh(v)]);
    assert Step(m1, SumLexemes[1]) == Outcome(Machine([Ref(0), Ref(1)], [OneDie(0).(slots := [Fresh(v)]), Two], 2, "", t1), true);
  }

  /** A second `roll()` reuses both groups: with the next draw 3 the
      result is 5. */
  lemma SumSecondRoll()
    ensures Evaluate([], [OneDie(5), Two], SumLexemes, Tape([3], 0)).result == Option.Some(5)
  {
    SumRollAgain([Fresh(5)], Tape([3], 0));
    assert OneDie(5) == OneDie(0).(slots := [Fresh(5)]);
  }

  lemma SumDisplays()
    ensures Display(OneDie(5)) == "[5]" && Display(Two) == "2"
  {
    assert IntToString(5) == "5" && IntToString(2) == "2";
    assert SlotText(Fresh(5)) == "5";
    assert SlotTexts([Fresh(5)]) == ["5"] by {
      assert SlotTexts([Fresh(5)])[0] == "5";
    }
  }

  lemma SumReplacements()
    ensures ReplaceFirst("1d6+2", "1d6", "[5]") == "[5]+2"
    ensures ReplaceFirst("[5]+2", "2", "2") == "[5]+2"
  {
    assert FindFrom("1d6+2", "1d6", 0) == Option.Some(0) by {
      assert "1d6+2"[0..3] == "1d6";
    }
    assert FindFrom("[5]+2", "2", 0) == Option.Some(4) by {
      assert "[5]+2"[4..5] == "2";
      assert "[5]+2"[0..1] == "[" && "[5]+2"[1..2] == "5" && "[5]+2"[2..3] == "]" && "[5]+2"[3..4] == "+";
    }
  }

  /** The tooltip of `1d6 + 2` after the die showed 5: the die's text is
      replaced by its display, the literal by its own text. */
  lemma SumTooltip()
    ensures TooltipText("1d6+2", "", [OneDie(5), Two]) == "1d6+2\n[5]+2"
  {
    SumSubstituted();
  }

  lemma SumSubstituted()
    ensures Substituted("1d6+2", [OneDie(5), Two], 0) == "[5]+2"
  {
    SumDisplays();
    SumReplacements();
    var d := [OneDie(5), Two];
    assert Substituted("1d6+2", d, 0) == Substituted("[5]+2", d, 1);
    assert Substituted("[5]+2", d, 1) == Substituted("[5]+2", d, 2);
  }

  /** `3 +`: an operator with a lone operand pushes it back, so the result
      is that operand's. */
  lemma LoneOperandResult()
    ensures Evaluate([], [], [DiceLexeme("3", LiteralText(3), []), OperatorLexeme(Plus)], Tape([], 0)).result ==
            Option.Some(3)
  {
    var lxs := [DiceLexeme("3", LiteralText(3), []), OperatorLexeme(Plus)];
    var t := Tape([], 0);
    var three := Group("3", Literal(3), false, [], [], [Fresh(3)]);
    var m1 := Machine([Ref(0)], [three], 1, "", t);
    FreshOne(3);
    assert NewGroup("3", Literal(3), false, [], t) == Drawn(three, t);
    assert Step(Start([], [], t), lxs[0]) == Outcome(m1, true);
    FoldLone(m1, Plus);
    assert Run(Start([], [], t), lxs, 0) == Outcome(m1, true);
    assert RollGroup(three, t) == Rolled([3], [Fresh(3)], t);
  }
}
