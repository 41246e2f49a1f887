/** One dice group (`DiceRoller`, and `StuntRoller` as a flagged group) as a
    value: what it is built from, its attached modifiers and conditions and
    its slots, with the functions that say what `result`, `display`,
    `applyModifier`, `_roll` and `roll` compute. The class in module Roller
    performs these steps in place and is proved against these functions. */
module Groups {
  import opened Common
  import opened Conditions
  import opened Random
  import opened Slots
  import opened Keep
  import opened Reroll
  import opened Explode
  import opened Combine
  import opened Success

  /** What a group rolls: an integer literal (a static group, which allows
      no modifiers) or `rolls` dice over the normalised faces. */
  datatype Shape = Literal(n: int) | Dice(rolls: nat, min: int, max: int)

  /** The keys of the `modifiers` Map: `kh`, `kl`, `!`, `!!`, `r`. */
  datatype Kind = Kh | Kl | Bang | BangBang | R

  /** A `Modifier`: its count (`data`) and its conditions. */
  datatype Modifier = Modifier(data: int, conditionals: seq<Conditional>)

  /** One entry of the `modifiers` Map, in insertion order. */
  datatype Attached = Attached(kind: Kind, mod: Modifier)

  /** A group: `original` is its lexeme's source text; `stunt` marks a
      `StuntRoller`; `conditions` are the lexeme's conditionals; `slots` is
      `results`. */
  datatype Group = Group(original: string, shape: Shape, stunt: bool, conditions: seq<Conditional>,
                         modifiers: seq<Attached>, slots: seq<Slot>)

  // ---------------------------------------------------------------------------
  // result and display
  // ---------------------------------------------------------------------------

  /** `result`: a static group's literal, else the sum of the usable values. */
  function Result(g: Group): int {
    if g.shape.Literal? then g.shape.n else Total(g.slots)
  }

  /** `display`: a stunt group's own rendering, the literal's text for a
      static group, else the bracketed slot list. */
  function Display(g: Group): (d: string)
    ensures (g.stunt || g.shape.Dice?) ==> |d| >= 2 && d[0] == '[' && d[|d| - 1] == ']'
  {
    if g.stunt then StuntRender(g.slots)
    else if g.shape.Literal? then IntToString(Result(g))
    else Render(g.slots)
  }

  // ---------------------------------------------------------------------------
  // The modifiers Map
  // ---------------------------------------------------------------------------

  /** Where `kind` sits in the Map, if it is there. */
  function Find(mods: seq<Attached>, kind: Kind): (r: Option<nat>)
    ensures r.Some? ==> r.value < |mods| && mods[r.value].kind == kind
    ensures r.None? ==> forall i :: 0 <= i < |mods| ==> mods[i].kind != kind
  {
    if mods == [] then None
    else if mods[|mods| - 1].kind == kind then Option.Some(|mods| - 1)
    else Find(mods[..|mods| - 1], kind)
  }

  /** `modifiers.set(kind, mod)`: a present key keeps its place and gets the
      new value; a new key goes to the end. */
  function SetModifier(mods: seq<Attached>, kind: Kind, mod: Modifier): seq<Attached> {
    match Find(mods, kind)
    case Some(i) => mods[i := Attached(kind, mod)]
    case None => mods + [Attached(kind, mod)]
  }

  predicate DistinctKinds(mods: seq<Attached>) {
    forall i, j :: 0 <= i < j < |mods| ==> mods[i].kind != mods[j].kind
  }

  /** `Map.set` keeps the keys distinct, keeps the order of the keys already
      present, appends a new key, and afterwards the key holds `mod` while
      every other key keeps its value. */
  lemma SetModifierSpec(mods: seq<Attached>, kind: Kind, mod: Modifier)
    requires DistinctKinds(mods)
    ensures var r := SetModifier(mods, kind, mod);
      && DistinctKinds(r)
      && (exists i :: 0 <= i < |r| && r[i] == Attached(kind, mod))
      && (forall i :: 0 <= i < |mods| && mods[i].kind != kind ==> r[i] == mods[i])
      && (forall i :: 0 <= i < |mods| ==> r[i].kind == mods[i].kind)
      && (if exists i :: 0 <= i < |mods| && mods[i].kind == kind then |r| == |mods| else r == mods + [Attached(kind, mod)])
  {
    var r := SetModifier(mods, kind, mod);
    match Find(mods, kind)
    case Some(i) =>
      assert r[i] == Attached(kind, mod);
    case None =>
      assert r[|mods|] == Attached(kind, mod);
  }

  // ---------------------------------------------------------------------------
  // applyModifier, _roll and roll
  // ---------------------------------------------------------------------------

  /** `applyModifier(type, modifier)`: a static group ignores every modifier
      (the guard that shows a notice and returns); otherwise the modifier of
      that kind runs on the slots. */
  function Applied(shape: Shape, a: Attached, s: seq<Slot>, tape: Tape): (r: Drawn<seq<Slot>>)
    ensures shape.Literal? ==> r == Drawn(s, tape)
  {
    match shape
    case Literal(_) => Drawn(s, tape)
    case Dice(_, min, max) =>
      match a.kind
      case Kh => Drawn(KeepHighSlots(s, a.mod.data), tape)
      case Kl => Drawn(KeepLowSlots(s, a.mod.data), tape)
      case Bang => ExplodeAll(s, a.mod.data, a.mod.conditionals, min, max, tape)
      case BangBang =>
        var c := CombineAll(s, a.mod.data, a.mod.conditionals, min, max, tape);
        Drawn(c.slots, c.tape)
      case R =>
        var r := RerollSlots(s, a.mod.data, a.mod.conditionals, min, max, tape);
        Drawn(r.slots, r.tape)
  }

  /** The `for ... of this.modifiers` loop of `roll`, from entry `k` on. */
  function ApplyFrom(shape: Shape, mods: seq<Attached>, k: nat, s: seq<Slot>, tape: Tape): Drawn<seq<Slot>>
    requires k <= |mods|
    decreases |mods| - k
  {
    if k == |mods| then Drawn(s, tape)
    else
      var d := Applied(shape, mods[k], s, tape);
      ApplyFrom(shape, mods, k + 1, d.out, d.tape)
  }

  /** `_roll`: the literal, or `rolls` draws over the faces. */
  function RawRoll(shape: Shape, tape: Tape): (d: Drawn<seq<int>>)
    ensures shape.Literal? ==> d == Drawn([shape.n], tape)
    ensures shape.Dice? ==> |d.out| == shape.rolls && d.tape == Skip(shape.rolls, tape)
    ensures shape.Dice? ==> forall i :: 0 <= i < |d.out| ==> InDrawRange(d.out[i], shape.min, shape.max)
  {
    match shape
    case Literal(n) => Drawn([n], tape)
    case Dice(rolls, min, max) => Drawn(Draws(rolls, min, max, tape), Skip(rolls, tape))
  }

  /** What `roll()` leaves: the raw draws it returns, the slots, the tape. */
  datatype Rolled = Rolled(raw: seq<int>, slots: seq<Slot>, tape: Tape)

  /** `roll()`: fresh slots from `_roll`, each attached modifier once in Map
      order, then the conditions when there are any. */
  function RollGroup(g: Group, tape: Tape): (r: Rolled)
    ensures |r.raw| == (if g.shape.Literal? then 1 else g.shape.rolls)
  {
    var d := RawRoll(g.shape, tape);
    var m := ApplyFrom(g.shape, g.modifiers, 0, FreshSlots(d.out), d.tape);
    Rolled(d.out, if g.conditions != [] then Judged(m.out, g.conditions) else m.out, m.tape)
  }

  // ---------------------------------------------------------------------------
  // Properties
  // ---------------------------------------------------------------------------

  /** A static group is left alone by every list of modifiers. */
  lemma {:induction false} StaticIgnoresModifiers(n: int, mods: seq<Attached>, k: nat, s: seq<Slot>, tape: Tape)
    requires k <= |mods|
    decreases |mods| - k
    ensures ApplyFrom(Literal(n), mods, k, s, tape) == Drawn(s, tape)
  {
    if k < |mods| {
      StaticIgnoresModifiers(n, mods, k + 1, s, tape);
    }
  }

  /** Rolling a static group draws nothing, and its `result` is its literal
      whatever the modifiers and conditions did to its one slot. */
  lemma RollStatic(g: Group, tape: Tape)
    requires g.shape.Literal?
    ensures var r := RollGroup(g, tape);
      && r.raw == [g.shape.n] && r.tape == tape && |r.slots| == 1
      && (g.conditions == [] ==> r.slots == [Fresh(g.shape.n)])
      && Result(g.(slots := r.slots)) == g.shape.n
  {
    StaticIgnoresModifiers(g.shape.n, g.modifiers, 0, FreshSlots([g.shape.n]), tape);
  }

  /** Modifiers compose in Map order: running the entries from `k` is running
      entry `k` and then the rest. Appending an entry runs it last. */
  lemma {:induction false} ApplyFromAppend(shape: Shape, mods: seq<Attached>, a: Attached, k: nat,
                                           s: seq<Slot>, tape: Tape)
    requires k <= |mods|
    decreases |mods| - k
    ensures var d := ApplyFrom(shape, mods, k, s, tape);
      ApplyFrom(shape, mods + [a], k, s, tape) == Applied(shape, a, d.out, d.tape)
  {
    var m := mods + [a];
    if k < |mods| {
      var d := Applied(shape, mods[k], s, tape);
      assert m[k] == mods[k];
      ApplyFromAppend(shape, mods, a, k + 1, d.out, d.tape);
    } else {
      assert m[k] == a;
    }
  }

  /** Without modifiers and conditions, `roll()` gives exactly `rolls` fresh,
      usable, unmarked slots holding the raw draws, each a possible draw. */
  lemma RollFresh(g: Group, tape: Tape)
    requires g.shape.Dice? && g.modifiers == [] && g.conditions == []
    ensures var r := RollGroup(g, tape);
      && |r.raw| == g.shape.rolls && r.slots == FreshSlots(r.raw)
      && r.raw == Draws(g.shape.rolls, g.shape.min, g.shape.max, tape)
      && r.tape == Skip(g.shape.rolls, tape)
      && (forall i :: 0 <= i < |r.slots| ==> r.slots[i].usable && r.slots[i].marks == [] &&
                                                InDrawRange(r.slots[i].value, g.shape.min, g.shape.max))
  {
  }

  /** With conditions attached, a rolled group's `result` counts successes:
      it lies between minus and plus its number of slots. */
  lemma RollSuccesses(g: Group, tape: Tape)
    requires g.shape.Dice? && g.conditions != []
    ensures var r := RollGroup(g, tape);
      -|r.slots| <= Result(g.(slots := r.slots)) <= |r.slots|
  {
    var d := RawRoll(g.shape, tape);
    var m := ApplyFrom(g.shape, g.modifiers, 0, FreshSlots(d.out), d.tape);
    JudgedTotal(m.out, g.conditions);
  }

  /** `keepHigh` and `keepLow` draw nothing and keep the slot count. */
  lemma KeepDrawsNothing(shape: Shape, a: Attached, s: seq<Slot>, tape: Tape)
    requires a.kind == Kh || a.kind == Kl
    ensures Applied(shape, a, s, tape).tape == tape
    ensures |Applied(shape, a, s, tape).out| == |s|
  {
  }

  /** A static group's `display` is the decimal text of its literal, which
      `Number(...)` reads back as `result`. */
  lemma DisplayStatic(g: Group)
    requires g.shape.Literal? && !g.stunt
    ensures IsIntegerText(Display(g)) && ParseInt(Display(g)) == Result(g) == g.shape.n
  {
    IntTextRoundTrip(g.shape.n);
  }

  /** `4d6kh3` with the draws 2, 5, 1, 6. */
  function KeepThree(): Group {
    Group("4d6kh3", Dice(4, 1, 6), false, [], [Attached(Kh, Modifier(3, []))], [])
  }

  /** The draws of `4d6` on the tape 2, 5, 1, 6. */
  lemma DrawKeepThree()
    ensures RawRoll(Dice(4, 1, 6), Tape([2, 5, 1, 6], 0)) == Drawn([2, 5, 1, 6], Tape([2, 5, 1, 6], 4))
  {
    var tape := Tape([2, 5, 1, 6], 0);
    DrawsFromTape(4, 1, 6, tape);
    assert tape.vals[0..4] == [2, 5, 1, 6];
  }

  /** Rolling `4d6kh3` on the draws 2, 5, 1, 6 leaves the 1 dropped. */
  lemma RollKeepThree()
    ensures RollGroup(KeepThree(), Tape([2, 5, 1, 6], 0)).slots ==
            [Fresh(2), Fresh(5), Drop(Fresh(1)), Fresh(6)]
  {
    var g := KeepThree();
    var a := Attached(Kh, Modifier(3, []));
    var t4 := Tape([2, 5, 1, 6], 4);
    var fs := FreshSlots([2, 5, 1, 6]);
    DrawKeepThree();
    ApplyFromAppend(g.shape, [], a, 0, fs, t4);
    assert [] + [a] == g.modifiers;
    assert Applied(g.shape, a, fs, t4) == Drawn(KeepHighSlots(fs, 3), t4);
    KeepHighThreeOfFour();
  }

  /** The text of each of the scenario's slots. */
  lemma SlotTextsKeepThree()
    ensures SlotTexts([Fresh(2), Fresh(5), Drop(Fresh(1)), Fresh(6)]) == ["2", "5", "1d", "6"]
  {
    var s := [Fresh(2), Fresh(5), Drop(Fresh(1)), Fresh(6)];
    var items := ["2", "5", "1d", "6"];
    assert IntToString(2) == "2" && IntToString(5) == "5" && IntToString(1) == "1" && IntToString(6) == "6";
    assert Drop(Fresh(1)).marks == ['d'];
    assert SlotTexts(s)[0] == items[0] && SlotTexts(s)[1] == items[1];
    assert SlotTexts(s)[2] == items[2] && SlotTexts(s)[3] == items[3];
  }

  /** The scenario's slots rendered. */
  lemma RenderKeepThree()
    ensures Render([Fresh(2), Fresh(5), Drop(Fresh(1)), Fresh(6)]) == "[2, 5, 1d, 6]"
  {
    SlotTextsKeepThree();
    var items := ["2", "5", "1d", "6"];
    assert items[1..] == ["5", "1d", "6"] && items[1..][1..] == ["1d", "6"] && items[1..][1..][1..] == ["6"];
  }

  /** The scenario's dice count 2 + 5 + 6. */
  lemma TotalKeepThree()
    ensures Total([Fresh(2), Fresh(5), Drop(Fresh(1)), Fresh(6)]) == 13
  {
    var s := [Fresh(2), Fresh(5), Drop(Fresh(1)), Fresh(6)];
    assert s[1..] == [Fresh(5), Drop(Fresh(1)), Fresh(6)] && s[1..][1..] == [Drop(Fresh(1)), Fresh(6)];
    assert s[1..][1..][1..] == [Fresh(6)];
  }

  /** The keep scenario: `4d6kh3` on the draws 2, 5, 1, 6 is displayed
      `[2, 5, 1d, 6]`, and its `result` is 13, the sum of the three kept
      dice. */
  lemma KeepThreeDisplay()
    ensures var g := KeepThree();
      var h := g.(slots := RollGroup(g, Tape([2, 5, 1, 6], 0)).slots);
      Display(h) == "[2, 5, 1d, 6]" && Result(h) == 13
  {
    RollKeepThree();
    RenderKeepThree();
    TotalKeepThree();
  }
}
