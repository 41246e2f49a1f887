/** `DiceRoller.applyConditions`: success counting. With conditions attached
    to a group, every slot becomes a success (value 1, mark `*`), a failure
    (no longer usable) or, when it equals the comparer of the negate marker
    `-=`/`=-`, a negative success (value -1, mark `-`). The slot's `display`
    text is left as it was. */
module Success {
  import opened Common
  import opened Conditions
  import opened Slots

  predicate IsNegate(c: Conditional) {
    c.operator == "-=" || c.operator == "=-"
  }

  /** `conditions.find(...)` for the negate marker: the first one, if any. */
  function Negate(conds: seq<Conditional>): (r: Option<Conditional>)
    ensures r.Some? ==> exists i :: 0 <= i < |conds| && conds[i] == r.value && IsNegate(conds[i]) &&
                                     forall j :: 0 <= j < i ==> !IsNegate(conds[j])
    ensures r.None? <==> forall i :: 0 <= i < |conds| ==> !IsNegate(conds[i])
  {
    if conds == [] then None
    else if IsNegate(conds[0]) then Option.Some(conds[0])
    else
      var r := Negate(conds[1..]);
      assert forall i :: 1 <= i < |conds| ==> conds[i] == conds[1..][i - 1];
      r
  }

  /** The body of the `for` loop for one slot. */
  function Judge(x: Slot, conds: seq<Conditional>): (y: Slot)
    ensures y.shown == x.shown && (y.usable ==> x.usable)
    ensures y.usable ==> y.value == 1 || y.value == -1
  {
    var neg := Negate(conds);
    if neg.Some? && x.value == neg.value.comparer then x.(value := -1, marks := AddMark(x.marks, '-'))
    else if !Matches(x.value, conds) then x.(usable := false)
    else x.(value := 1, marks := AddMark(x.marks, '*'))
  }

  /** The slots after `applyConditions`, slot by slot. */
  function Judged(s: seq<Slot>, conds: seq<Conditional>): (r: seq<Slot>)
    ensures |r| == |s|
  {
    seq(|s|, i requires 0 <= i < |s| => Judge(s[i], conds))
  }

  // ---------------------------------------------------------------------------
  // Properties
  // ---------------------------------------------------------------------------

  /** The three outcomes for one slot. The negate comparer wins over every
      other condition; a failure keeps its value but stops counting; a slot
      that was already dropped stays dropped; `display` never changes. */
  lemma JudgeSpec(x: Slot, conds: seq<Conditional>)
    ensures var y := Judge(x, conds);
      && y.shown == x.shown
      && (y.usable ==> x.usable)
      && ((exists i :: 0 <= i < |conds| && IsNegate(conds[i]) && conds[i].comparer == x.value &&
                       forall j :: 0 <= j < i ==> !IsNegate(conds[j])) ==>
            y == x.(value := -1, marks := AddMark(x.marks, '-')))
      && ((forall i :: 0 <= i < |conds| && IsNegate(conds[i]) ==> conds[i].comparer != x.value) ==>
            if Matches(x.value, conds) then y == x.(value := 1, marks := AddMark(x.marks, '*'))
            else y == x.(usable := false))
  {
    var neg := Negate(conds);
    if neg.Some? {
      var i :| 0 <= i < |conds| && conds[i] == neg.value && IsNegate(conds[i]) &&
               forall j :: 0 <= j < i ==> !IsNegate(conds[j]);
      forall k | 0 <= k < |conds| && IsNegate(conds[k]) && conds[k].comparer == x.value &&
                 (forall j :: 0 <= j < k ==> !IsNegate(conds[j]))
        ensures k == i
      {
        assert !(k < i) && !(i < k);
      }
    }
  }

  /** Every slot that still counts after `applyConditions` counts 1 or -1. */
  lemma JudgedUnit(s: seq<Slot>, conds: seq<Conditional>)
    ensures var r := Judged(s, conds);
      forall i :: 0 <= i < |r| && r[i].usable ==> r[i].value == 1 || r[i].value == -1
  {
  }

  /** So `result` lies between minus and plus the number of slots. */
  lemma JudgedTotal(s: seq<Slot>, conds: seq<Conditional>)
    ensures -|s| <= Total(Judged(s, conds)) <= |s|
  {
    var r := Judged(s, conds);
    JudgedUnit(s, conds);
    TotalBounds(r, -1, 1);
  }

  /** A slot that `keepHigh`/`keepLow` dropped stays dropped and adds
      nothing, whatever the conditions say about it. */
  lemma JudgeKeepsDropped(x: Slot, conds: seq<Conditional>)
    requires !x.usable
    ensures !Judge(x, conds).usable
    ensures Contribution(Judge(x, conds)) == 0
  {
  }
}
