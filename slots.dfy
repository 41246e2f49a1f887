/** One rolled die of a group (an entry of `DiceRoller.results`) and the views
    derived from the ordered slot list: `result`, `display`, and the stunt
    group's `doubles` and `display`. The `results` Map has dense keys
    0..n-1 that follow its order, so it is a sequence here. */
module Slots {
  import opened Common

  /** `{usable, value, display, modifiers}` of the source. `display` is
      only ever set to the decimal text of an integer (`${n}`), so the slot
      keeps that integer, `shown`, and the text is `IntToString(shown)`;
      `marks` is the `modifiers` Set, a duplicate-free list in insertion
      order. */
  datatype Slot = Slot(usable: bool, value: int, shown: int, marks: seq<char>)

  predicate NoDup(m: seq<char>) {
    forall i, j :: 0 <= i < j < |m| ==> m[i] != m[j]
  }

  /** `Set.add`: a mark already present keeps its place. */
  function AddMark(m: seq<char>, c: char): (r: seq<char>)
    ensures c in r
  {
    if c in m then m else m + [c]
  }

  /** `AddMark` behaves as `Set.add` on an insertion-ordered set: the marks
      are the old ones plus `c`, the old ones keep their order in front, no
      duplicate appears, and adding a present mark changes nothing. */
  lemma AddMarkSpec(m: seq<char>, c: char)
    ensures forall x :: x in AddMark(m, c) <==> x in m || x == c
    ensures NoDup(m) ==> NoDup(AddMark(m, c))
    ensures |m| <= |AddMark(m, c)| && AddMark(m, c)[..|m|] == m
    ensures c in m ==> AddMark(m, c) == m
    ensures AddMark(AddMark(m, c), c) == AddMark(m, c)
  {
  }

  predicate MarksOk(s: seq<Slot>) {
    forall i :: 0 <= i < |s| ==> NoDup(s[i].marks)
  }

  /** A freshly drawn die: usable, unmarked, displayed as its value. */
  function Fresh(n: int): (x: Slot)
    ensures x.usable && x.value == n && x.marks == []
  {
    Slot(true, n, n, [])
  }

  /** `new Map(roll.map((n, i) => [i, {usable: true, value: n, ...}]))`. */
  function FreshSlots(raw: seq<int>): (s: seq<Slot>)
    ensures |s| == |raw|
    ensures forall i :: 0 <= i < |s| ==> s[i] == Fresh(raw[i])
  {
    if raw == [] then [] else [Fresh(raw[0])] + FreshSlots(raw[1..])
  }

  function Values(s: seq<Slot>): (vs: seq<int>)
    ensures |vs| == |s|
    ensures forall i :: 0 <= i < |s| ==> vs[i] == s[i].value
  {
    if s == [] then [] else [s[0].value] + Values(s[1..])
  }

  /** What one slot adds to `result`: its value when usable, else 0. */
  function Contribution(x: Slot): int {
    if x.usable then x.value else 0
  }

  /** `result` of a non-static group: the usable values summed in order. */
  function Total(s: seq<Slot>): int {
    if s == [] then 0 else Contribution(s[0]) + Total(s[1..])
  }

  lemma {:induction false} TotalAppend(a: seq<Slot>, b: seq<Slot>)
    ensures Total(a + b) == Total(a) + Total(b)
  {
    if a != [] {
      assert (a + b)[1..] == a[1..] + b;
      TotalAppend(a[1..], b);
    } else {
      assert a + b == b;
    }
  }

  /** One more slot at the end adds its contribution. */
  lemma TotalLast(a: seq<Slot>, y: Slot)
    ensures Total(a + [y]) == Total(a) + Contribution(y)
  {
    TotalAppend(a, [y]);
  }

  /** Replacing the slot after `a + d` by `y` and `z` is appending `y` and
      `z` to the front part. */
  lemma MarkAndInsert(a: seq<Slot>, d: seq<Slot>, x: Slot, y: Slot, z: Slot, b: seq<Slot>)
    ensures var p := |a| + |d|;
      var t := a + d + [x] + b;
      t[..p] + [y, z] + t[p + 1..] == a + (d + [y]) + [z] + b
  {
    var p := |a| + |d|;
    var t := a + d + [x] + b;
    assert t[..p] == a + d;
    assert t[p + 1..] == b;
  }

  /** The slots done so far, then slot `k` of `s` and the ones after it. */
  lemma Around(a: seq<Slot>, s: seq<Slot>, k: nat)
    requires k < |s|
    ensures var t := a + s[k..];
      t[..|a|] == a && t[|a|] == s[k] && t[|a| + 1..] == s[k + 1..] && t == a + [s[k]] + s[k + 1..]
      && t[|a| := s[k]] == t
  {
    assert s[k..] == [s[k]] + s[k + 1..];
  }

  /** Replacing slot `k` by the slots `m` moves the boundary past `k`. */
  lemma Behind(a: seq<Slot>, m: seq<Slot>, s: seq<Slot>, k: nat)
    requires k < |s|
    ensures a + m + s[k + 1..] == (a + m) + s[k + 1..]
    ensures |m| == 1 ==> (a + s[k..])[|a| := m[0]] == (a + m) + s[k + 1..]
  {
    assert s[k..] == [s[k]] + s[k + 1..];
    if |m| == 1 {
      assert (a + s[k..])[|a| := m[0]] == a + [m[0]] + s[k + 1..];
      assert m == [m[0]];
    }
  }

  /** Taking slot `k` out of `t` removes it from the multiset. */
  lemma RemoveAtMultiset(t: seq<Slot>, k: nat)
    requires k < |t|
    ensures multiset(t[..k] + t[k + 1..]) == multiset(t) - multiset{t[k]}
  {
    var a, b := t[..k], t[k + 1..];
    assert t == a + [t[k]] + b;
  }

  /** Taking slot `k` out of `t` removes its contribution from the total. */
  lemma RemoveAtTotal(t: seq<Slot>, k: nat)
    requires k < |t|
    ensures Total(t) == Contribution(t[k]) + Total(t[..k] + t[k + 1..])
  {
    var a, b := t[..k], t[k + 1..];
    assert t == a + ([t[k]] + b);
    TotalAppend(a, [t[k]] + b);
    TotalAppend([t[k]], b);
    TotalAppend(a, b);
  }

  /** `result` does not depend on the order of the slots. */
  lemma {:induction false} TotalPermutation(s: seq<Slot>, t: seq<Slot>)
    requires multiset(s) == multiset(t)
    ensures Total(s) == Total(t)
  {
    if s != [] {
      assert s[0] in multiset(t);
      var k :| 0 <= k < |t| && t[k] == s[0];
      RemoveAtMultiset(t, k);
      RemoveAtTotal(t, k);
      assert s == [s[0]] + s[1..];
      assert multiset(s[1..]) == multiset(s) - multiset{s[0]};
      TotalPermutation(s[1..], t[..k] + t[k + 1..]);
    }
  }

  /** A group whose slots are all dropped or failed counts 0. */
  lemma {:induction false} TotalNoneUsable(s: seq<Slot>)
    requires forall i :: 0 <= i < |s| ==> !s[i].usable
    ensures Total(s) == 0
  {
    if s != [] {
      TotalNoneUsable(s[1..]);
    }
  }

  /** A usable slot of value v changes the total by v; an unusable one by 0. */
  lemma {:induction false} TotalBounds(s: seq<Slot>, lo: int, hi: int)
    requires lo <= 0 <= hi
    requires forall i :: 0 <= i < |s| && s[i].usable ==> lo <= s[i].value <= hi
    ensures |s| * lo <= Total(s) <= |s| * hi
  {
    if s != [] {
      TotalBounds(s[1..], lo, hi);
    }
  }

  // ---------------------------------------------------------------------------
  // display
  // ---------------------------------------------------------------------------

  function Join(items: seq<string>, sep: string): string {
    if items == [] then ""
    else if |items| == 1 then items[0]
    else items[0] + sep + Join(items[1..], sep)
  }

  /** One slot as `display` shows it: its display text, then its marks. */
  function SlotText(x: Slot): string {
    IntToString(x.shown) + x.marks
  }

  function SlotTexts(s: seq<Slot>): (items: seq<string>)
    ensures |items| == |s|
  {
    seq(|s|, i requires 0 <= i < |s| => SlotText(s[i]))
  }

  /** `display` of a non-static group: `[a, b, ...]` in slot order. */
  function Render(s: seq<Slot>): (r: string)
    ensures |r| >= 2 && r[0] == '[' && r[|r| - 1] == ']'
    ensures s == [] ==> r == "[]"
  {
    "[" + Join(SlotTexts(s), ", ") + "]"
  }

  // ---------------------------------------------------------------------------
  // StuntRoller
  // ---------------------------------------------------------------------------

  /** The distinct contributions `new Set(... usable ? value : 0)`. */
  function Contributions(s: seq<Slot>): set<int> {
    set i | 0 <= i < |s| :: Contribution(s[i])
  }

  /** `StuntRoller.doubles`: fewer than three distinct contributions. */
  predicate Doubles(s: seq<Slot>) {
    |Contributions(s)| < 3
  }

  /** Three slots with pairwise distinct contributions are not doubles, and a
      repeated contribution among three slots is. */
  lemma DoublesOfThree(s: seq<Slot>)
    requires |s| == 3
    ensures Doubles(s) <==> (Contribution(s[0]) == Contribution(s[1]) ||
                             Contribution(s[1]) == Contribution(s[2]) ||
                             Contribution(s[0]) == Contribution(s[2]))
  {
    var a, b, c := Contribution(s[0]), Contribution(s[1]), Contribution(s[2]);
    assert Contributions(s) == {a, b, c} by {
      forall x | x in Contributions(s) ensures x in {a, b, c} {
        var i :| 0 <= i < 3 && x == Contribution(s[i]);
      }
      assert a in Contributions(s) && b in Contributions(s) && c in Contributions(s);
    }
    if a != b && b != c && a != c {
      assert |{a, b, c}| == 3;
    } else if a == b {
      assert {a, b, c} == {a, c};
    } else if b == c {
      assert {a, b, c} == {a, b};
    } else {
      assert {a, b, c} == {a, b};
    }
  }

  /** The bare values of a stunt group, the first one suffixed `S` when
      `doubles` holds (marks are not shown). */
  function StuntShown(s: seq<Slot>, doubles: bool): (items: seq<string>)
    ensures |items| == |s|
  {
    seq(|s|, i requires 0 <= i < |s| => IntToString(s[i].value) + (if i == 0 && doubles then "S" else ""))
  }

  /** `StuntRoller.display`. */
  function StuntRender(s: seq<Slot>): (r: string)
    ensures |r| >= 2 && r[0] == '[' && r[|r| - 1] == ']'
    ensures s == [] ==> r == "[]"
  {
    "[" + Join(StuntShown(s, Doubles(s)), ", ") + "]"
  }

  /** Entry by entry: the first slot shows its value suffixed `S` exactly
      when the group came up doubles, every other slot shows its bare value;
      display text and marks play no part. */
  lemma StuntRenderEntries(s: seq<Slot>)
    requires s != []
    ensures var items := StuntShown(s, Doubles(s));
      && StuntRender(s) == "[" + Join(items, ", ") + "]"
      && (items[0] == IntToString(s[0].value) + "S" <==> Doubles(s))
      && (!Doubles(s) ==> items[0] == IntToString(s[0].value))
      && (forall k :: 1 <= k < |s| ==> items[k] == IntToString(s[k].value))
  {
  }

  /** On fresh, unmarked slots the stunt display is the ordinary display,
      with an `S` mark on the first slot when the group came up doubles. */
  lemma StuntRenderAsRender(s: seq<Slot>)
    requires forall k :: 0 <= k < |s| ==> s[k].shown == s[k].value && s[k].marks == []
    ensures StuntRender(s) == Render(if s != [] && Doubles(s) then s[0 := s[0].(marks := "S")] else s)
  {
    var t := if s != [] && Doubles(s) then s[0 := s[0].(marks := "S")] else s;
    assert StuntShown(s, Doubles(s)) == SlotTexts(t) by {
      forall k | 0 <= k < |s|
        ensures StuntShown(s, Doubles(s))[k] == SlotTexts(t)[k]
      {
      }
    }
  }

  lemma StuntShownDoubles()
    ensures StuntShown(FreshSlots([4, 4, 2]), Doubles(FreshSlots([4, 4, 2]))) == ["4S", "4", "2"]
  {
    var s := FreshSlots([4, 4, 2]);
    DoublesOfThree(s);
    assert Contribution(s[0]) == Contribution(s[1]);
    assert IntToString(4) == "4" && IntToString(2) == "2";
    var items := StuntShown(s, true);
    assert items[0] == "4S" && items[1] == "4" && items[2] == "2";
  }

  /** `4, 4, 2` on a stunt group: doubles, so the first die is marked `S`. */
  lemma StuntRenderDoubles()
    ensures StuntRender(FreshSlots([4, 4, 2])) == "[4S, 4, 2]"
  {
    StuntShownDoubles();
    JoinThree("4S", "4", "2", ", ");
  }

  lemma StuntShownPlain()
    ensures StuntShown(FreshSlots([1, 2, 3]), Doubles(FreshSlots([1, 2, 3]))) == ["1", "2", "3"]
  {
    var s := FreshSlots([1, 2, 3]);
    DoublesOfThree(s);
    assert Contribution(s[0]) == 1 && Contribution(s[1]) == 2 && Contribution(s[2]) == 3;
    assert IntToString(1) == "1" && IntToString(2) == "2" && IntToString(3) == "3";
    var items := StuntShown(s, false);
    assert items[0] == "1" && items[1] == "2" && items[2] == "3";
  }

  /** `1, 2, 3` on a stunt group: no doubles, so no die is marked. */
  lemma StuntRenderPlain()
    ensures StuntRender(FreshSlots([1, 2, 3])) == "[1, 2, 3]"
  {
    StuntShownPlain();
    JoinThree("1", "2", "3", ", ");
  }

  lemma JoinThree(a: string, b: string, c: string, sep: string)
    ensures Join([a, b, c], sep) == a + sep + b + sep + c
  {
    assert [a, b, c][1..] == [b, c] && [b, c][1..] == [c];
    assert Join([b, c], sep) == b + sep + c;
    assert a + sep + (b + sep + c) == a + sep + b + sep + c;
  }
}
