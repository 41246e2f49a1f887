/** `keepHigh` and `keepLow`: sort the slots by value (a stable sort, so
    equal values keep slot order), take `slice(k)` of the sorted list and drop
    those slots (usable := false, mark `d`). A slot's place in the stable sort
    is its rank: the number of slots ordered strictly before it by value plus
    the number of equal slots before it in slot order. */
module Keep {
  import opened Common
  import opened Slots

  /** `keepHigh` sorts by `b - a` (descending), `keepLow` by `a - b`. */
  datatype Order = Descending | Ascending

  predicate Before(a: int, b: int, o: Order) {
    if o == Descending then a > b else a < b
  }

  /** Number of values that sort strictly before `x`. */
  function CountBefore(vs: seq<int>, x: int, o: Order): nat {
    if vs == [] then 0 else (if Before(vs[0], x, o) then 1 else 0) + CountBefore(vs[1..], x, o)
  }

  /** Number of values equal to `x`. */
  function CountEqual(vs: seq<int>, x: int): nat {
    if vs == [] then 0 else (if vs[0] == x then 1 else 0) + CountEqual(vs[1..], x)
  }

  /** Position of slot `i` after a stable sort in order `o`. */
  function Rank(vs: seq<int>, i: nat, o: Order): nat
    requires i < |vs|
  {
    CountBefore(vs, vs[i], o) + CountEqual(vs[..i], vs[i])
  }

  // ---------------------------------------------------------------------------
  // Counting facts
  // ---------------------------------------------------------------------------

  lemma {:induction false} CountSplit(a: seq<int>, b: seq<int>, x: int, o: Order)
    ensures CountBefore(a + b, x, o) == CountBefore(a, x, o) + CountBefore(b, x, o)
    ensures CountEqual(a + b, x) == CountEqual(a, x) + CountEqual(b, x)
  {
    if a == [] {
      assert a + b == b;
    } else {
      assert (a + b)[1..] == a[1..] + b;
      CountSplit(a[1..], b, x, o);
    }
  }

  /** A value is never before itself, so before + equal fits in the length. */
  lemma {:induction false} CountsFit(vs: seq<int>, x: int, o: Order)
    ensures CountBefore(vs, x, o) + CountEqual(vs, x) <= |vs|
  {
    if vs != [] {
      CountsFit(vs[1..], x, o);
    }
  }

  /** Everything before or equal to `y` is before `x` when `y` is before `x`. */
  lemma {:induction false} CountBeforeMonotone(vs: seq<int>, x: int, y: int, o: Order)
    requires Before(y, x, o)
    ensures CountBefore(vs, x, o) >= CountBefore(vs, y, o) + CountEqual(vs, y)
  {
    if vs != [] {
      CountBeforeMonotone(vs[1..], x, y, o);
    }
  }

  lemma {:induction false} RankBelowLength(vs: seq<int>, i: nat, o: Order)
    requires i < |vs|
    ensures Rank(vs, i, o) < |vs|
  {
    var x := vs[i];
    assert vs == vs[..i] + vs[i..];
    CountSplit(vs[..i], vs[i..], x, o);
    assert vs[i..] == [x] + vs[i + 1..];
    CountSplit([x], vs[i + 1..], x, o);
    CountsFit(vs[..i], x, o);
    CountsFit(vs[i + 1..], x, o);
  }

  /** The ranks order slots as a stable sort does: a strictly better value
      comes first, and among equal values the earlier slot comes first. */
  lemma {:induction false} RankOrder(vs: seq<int>, i: nat, j: nat, o: Order)
    requires i < |vs| && j < |vs|
    requires Before(vs[j], vs[i], o) || (vs[j] == vs[i] && j < i)
    ensures Rank(vs, j, o) < Rank(vs, i, o)
  {
    var y := vs[j];
    assert vs == vs[..j] + vs[j..];
    assert vs[j..] == [y] + vs[j + 1..];
    if Before(y, vs[i], o) {
      CountBeforeMonotone(vs, vs[i], y, o);
      CountSplit(vs[..j], vs[j..], y, o);
      CountSplit([y], vs[j + 1..], y, o);
    } else {
      assert vs[..i] == vs[..j] + vs[j..i];
      assert vs[j..i] == [y] + vs[j + 1..i];
      CountSplit(vs[..j], vs[j..i], y, o);
      CountSplit([y], vs[j + 1..i], y, o);
    }
  }

  /** Two different slots never share a rank. */
  lemma {:induction false} RankInjective(vs: seq<int>, i: nat, j: nat, o: Order)
    requires i < |vs| && j < |vs| && i != j
    ensures Rank(vs, i, o) != Rank(vs, j, o)
  {
    if vs[i] == vs[j] {
      if i < j { RankOrder(vs, j, i, o); } else { RankOrder(vs, i, j, o); }
    } else if Before(vs[j], vs[i], o) {
      RankOrder(vs, i, j, o);
    } else {
      assert Before(vs[i], vs[j], o);
      RankOrder(vs, j, i, o);
    }
  }

  /** The set of slots a stable sort puts at positions below `start`. */
  function RankedBelow(vs: seq<int>, start: nat, o: Order): set<nat> {
    set i: nat | i < |vs| && Rank(vs, i, o) < start
  }

  /** Positions 0..k-1. */
  function Below(k: nat): (r: set<nat>)
    ensures forall x: nat :: x in r <==> x < k
    ensures |r| == k
  {
    if k == 0 then {} else Below(k - 1) + {k - 1}
  }

  function Image(f: nat -> nat, dom: set<nat>): set<nat> {
    set i | i in dom :: f(i)
  }

  predicate InjectiveOn(f: nat -> nat, n: nat) {
    forall i: nat, j: nat :: i < n && j < n && i != j ==> f(i) != f(j)
  }

  lemma {:induction false} ImageCard(f: nat -> nat, n: nat, dom: set<nat>)
    requires InjectiveOn(f, n)
    requires forall i :: i in dom ==> i < n
    ensures |Image(f, dom)| == |dom|
    decreases |dom|
  {
    if dom != {} {
      var x :| x in dom;
      var rest := dom - {x};
      ImageCard(f, n, rest);
      assert Image(f, dom) == Image(f, rest) + {f(x)};
      assert f(x) !in Image(f, rest);
    }
  }

  lemma {:induction false} SubsetSameSize(a: set<nat>, b: set<nat>)
    requires a <= b && |a| == |b|
    ensures a == b
  {
    assert b == a + (b - a);
    assert a * (b - a) == {};
    assert |b| == |a| + |b - a|;
  }

  /** Pigeonhole: an injective map of 0..n-1 into 0..n-1 hits every position. */
  lemma {:induction false} InjectiveOnto(f: nat -> nat, n: nat)
    requires InjectiveOn(f, n)
    requires forall i: nat :: i < n ==> f(i) < n
    ensures Image(f, Below(n)) == Below(n)
  {
    ImageCard(f, n, Below(n));
    assert Image(f, Below(n)) <= Below(n);
    SubsetSameSize(Image(f, Below(n)), Below(n));
  }

  lemma PreimageOf(f: nat -> nat, n: nat, k: nat, kept: set<nat>, r: nat)
    requires r < k <= n
    requires forall i: nat :: i in kept <==> i < n && f(i) < k
    requires r in Image(f, Below(n))
    ensures r in Image(f, kept)
  {
    var i :| i in Below(n) && f(i) == r;
    assert i < n && f(i) < k;
    assert i in kept;
  }

  lemma PreimageCovers(f: nat -> nat, n: nat, k: nat, kept: set<nat>)
    requires k <= n
    requires forall i: nat :: i in kept <==> i < n && f(i) < k
    requires Image(f, Below(n)) == Below(n)
    ensures forall r: nat :: r < k ==> r in Image(f, kept)
  {
    forall r: nat | r < k ensures r in Image(f, kept) {
      PreimageOf(f, n, k, kept, r);
    }
  }

  lemma {:induction false} PreimageBelow(f: nat -> nat, n: nat, k: nat, kept: set<nat>)
    requires k <= n
    requires forall i: nat :: i in kept <==> i < n && f(i) < k
    requires Image(f, Below(n)) == Below(n)
    ensures Image(f, kept) == Below(k)
  {
    PreimageCovers(f, n, k, kept);
    forall x: nat | x in Image(f, kept) ensures x < k {
      var i :| i in kept && f(i) == x;
    }
    forall x: nat ensures x in Image(f, kept) <==> x in Below(k) {
    }
  }

  /** So exactly k arguments land below k. */
  lemma {:induction false} InjectiveCountBelow(f: nat -> nat, n: nat, k: nat)
    requires k <= n
    requires InjectiveOn(f, n)
    requires forall i: nat :: i < n ==> f(i) < n
    ensures |set i: nat | i < n && f(i) < k| == k
  {
    var kept := set i: nat | i < n && f(i) < k;
    InjectiveOnto(f, n);
    PreimageBelow(f, n, k, kept);
    ImageCard(f, n, kept);
  }

  /** The ranks of the n slots are exactly 0..n-1 (the stable sort is a
      permutation), so exactly `start` slots sort below position `start`. */
  lemma {:induction false} RankedBelowCount(vs: seq<int>, start: nat, o: Order)
    requires start <= |vs|
    ensures |RankedBelow(vs, start, o)| == start
  {
    var f: nat -> nat := (i: nat) => if i < |vs| then Rank(vs, i, o) else 0;
    forall i: nat, j: nat | i < |vs| && j < |vs| && i != j ensures f(i) != f(j) {
      RankInjective(vs, i, j, o);
    }
    forall i: nat | i < |vs| ensures f(i) < |vs| {
      RankBelowLength(vs, i, o);
    }
    InjectiveCountBelow(f, |vs|, start);
    assert (set i: nat | i < |vs| && f(i) < start) == RankedBelow(vs, start, o);
  }

  // ---------------------------------------------------------------------------
  // keepHigh / keepLow on the slot list
  // ---------------------------------------------------------------------------

  /** A dropped slot: no longer usable, mark `d` added. */
  function Drop(x: Slot): Slot {
    x.(usable := false, marks := AddMark(x.marks, 'd'))
  }

  /** Slots whose rank is at or after `start` are the ones `slice` returns. */
  function DropFrom(s: seq<Slot>, start: nat, o: Order): (r: seq<Slot>)
    ensures |r| == |s|
    ensures forall i :: 0 <= i < |s| ==> r[i] == s[i] || r[i] == Drop(s[i])
  {
    var vs := Values(s);
    seq(|s|, i requires 0 <= i < |s| => if Rank(vs, i, o) >= start then Drop(s[i]) else s[i])
  }

  /** `keepHigh(n)`: `slice(n)` of the descending sort is dropped. */
  function KeepHighSlots(s: seq<Slot>, n: int): (r: seq<Slot>)
    ensures |r| == |s|
    ensures forall i :: 0 <= i < |s| ==> r[i] == s[i] || r[i] == Drop(s[i])
  {
    DropFrom(s, SliceStart(n, |s|), Descending)
  }

  /** `keepLow(n)`: `slice(n - size)` of the ascending sort is dropped. */
  function KeepLowSlots(s: seq<Slot>, n: int): (r: seq<Slot>)
    ensures |r| == |s|
    ensures forall i :: 0 <= i < |s| ==> r[i] == s[i] || r[i] == Drop(s[i])
  {
    DropFrom(s, SliceStart(n - |s|, |s|), Ascending)
  }

  /** Dropping only clears `usable` and adds `d`: values, displays and the
      slot count are untouched. */
  lemma {:induction false} DropFromKeepsValues(s: seq<Slot>, start: nat, o: Order)
    ensures Values(DropFrom(s, start, o)) == Values(s)
    ensures forall i :: 0 <= i < |s| ==> DropFrom(s, start, o)[i].shown == s[i].shown
  {
  }

  /** Every kept slot ranks before every dropped one: its value is at least
      as good, and on a tie it is the earlier slot. */
  lemma {:induction false} KeptBeatsDropped(vs: seq<int>, start: nat, o: Order, i: nat, j: nat)
    requires i < |vs| && j < |vs|
    requires Rank(vs, i, o) < start <= Rank(vs, j, o)
    ensures !Before(vs[j], vs[i], o)
    ensures vs[j] == vs[i] ==> i < j
  {
    if Before(vs[j], vs[i], o) || (vs[j] == vs[i] && j < i) {
      RankOrder(vs, i, j, o);
    }
  }

  /** keepHigh(n) with n at least the slot count drops nothing. */
  lemma {:induction false} KeepHighAll(s: seq<Slot>, n: int)
    requires n >= |s|
    ensures KeepHighSlots(s, n) == s
  {
    var r := KeepHighSlots(s, n);
    forall i | 0 <= i < |s| ensures r[i] == s[i] {
      RankBelowLength(Values(s), i, Descending);
    }
  }

  /** keepHigh(n) for 0 <= n < size drops exactly the slots ranked n or later
      in the stable descending sort. */
  lemma {:induction false} KeepHighDrops(s: seq<Slot>, n: int, i: nat)
    requires 0 <= n && i < |s|
    ensures KeepHighSlots(s, n)[i] == if Rank(Values(s), i, Descending) >= n then Drop(s[i]) else s[i]
  {
    if n > |s| { RankBelowLength(Values(s), i, Descending); }
  }

  /** keepLow(n) with 0 < n < size drops the slots ranked n or later in the
      stable ascending sort, i.e. keeps the n lowest. */
  lemma {:induction false} KeepLowDrops(s: seq<Slot>, n: int, i: nat)
    requires 0 < n < |s| && i < |s|
    ensures KeepLowSlots(s, n)[i] == if Rank(Values(s), i, Ascending) >= n then Drop(s[i]) else s[i]
  {
  }

  /** keepLow(n) with n equal to the slot count drops every slot: the slice
      starts at `n - size = 0`. */
  lemma {:induction false} KeepLowAllDropped(s: seq<Slot>)
    ensures KeepLowSlots(s, |s|) == seq(|s|, i requires 0 <= i < |s| => Drop(s[i]))
  {
  }

  // ---------------------------------------------------------------------------
  // What `display` shows after keepHigh / keepLow
  // ---------------------------------------------------------------------------

  /** On slots that carry no `d` yet, a slot's text gains a trailing `d`
      exactly when the slice dropped it, and it then stops counting; every
      other slot keeps its text and its `usable` flag. */
  lemma {:induction false} DropFromText(s: seq<Slot>, start: nat, o: Order)
    requires forall i :: 0 <= i < |s| ==> 'd' !in s[i].marks
    ensures var r := DropFrom(s, start, o);
      forall i :: 0 <= i < |s| ==>
        && ('d' in r[i].marks <==> Rank(Values(s), i, o) >= start)
        && SlotText(r[i]) == SlotText(s[i]) + (if Rank(Values(s), i, o) >= start then "d" else "")
        && (r[i].usable <==> s[i].usable && Rank(Values(s), i, o) < start)
  {
    var r := DropFrom(s, start, o);
    forall i | 0 <= i < |s|
      ensures SlotText(r[i]) == SlotText(s[i]) + (if Rank(Values(s), i, o) >= start then "d" else "")
    {
      if Rank(Values(s), i, o) >= start {
        assert r[i].marks == s[i].marks + ['d'];
        assert SlotText(r[i]) == IntToString(s[i].shown) + (s[i].marks + ['d']);
      }
    }
  }

  /** `keepHigh(n)` on fresh or undropped slots: exactly `n` slots (all of
      them when `n` is at least the slot count) keep their text and count;
      every other slot is shown with a trailing `d` and counts 0. */
  lemma KeepHighText(s: seq<Slot>, n: int)
    requires 0 <= n
    requires forall i :: 0 <= i < |s| ==> 'd' !in s[i].marks && s[i].usable
    ensures var r := KeepHighSlots(s, n);
      && |set i: nat | i < |s| && r[i].usable| == (if n < |s| then n else |s|)
      && forall i :: 0 <= i < |s| ==>
           && (SlotText(r[i]) == SlotText(s[i]) + "d" <==> !r[i].usable)
           && (r[i].usable ==> SlotText(r[i]) == SlotText(s[i]))
  {
    var start := SliceStart(n, |s|);
    var r := KeepHighSlots(s, n);
    var vs := Values(s);
    DropFromText(s, start, Descending);
    RankedBelowCount(vs, start, Descending);
    assert (set i: nat | i < |s| && r[i].usable) == RankedBelow(vs, start, Descending);
    forall i | 0 <= i < |s| && r[i].usable ensures SlotText(r[i]) != SlotText(s[i]) + "d" {
      assert |SlotText(r[i])| != |SlotText(s[i]) + "d"|;
    }
  }

  /** The ranks of the draws 2, 5, 1, 6 in the descending sort. */
  lemma RanksOfScenario()
    ensures var vs := [2, 5, 1, 6];
      Rank(vs, 0, Descending) == 2 && Rank(vs, 1, Descending) == 1 &&
      Rank(vs, 2, Descending) == 3 && Rank(vs, 3, Descending) == 0
  {
    var vs := [2, 5, 1, 6];
    assert vs[1..] == [5, 1, 6] && vs[2..] == [1, 6] && vs[3..] == [6];
    assert vs[..1] == [2] && vs[..2] == [2, 5] && vs[..3] == [2, 5, 1];
  }

  /** `keepHigh(3)` on the draws 2, 5, 1, 6 drops only the 1. */
  lemma KeepHighThreeOfFour()
    ensures KeepHighSlots(FreshSlots([2, 5, 1, 6]), 3) ==
            [Fresh(2), Fresh(5), Drop(Fresh(1)), Fresh(6)]
  {
    var s := [Fresh(2), Fresh(5), Fresh(1), Fresh(6)];
    assert FreshSlots([2, 5, 1, 6]) == s;
    assert Values(s) == [2, 5, 1, 6];
    RanksOfScenario();
    var r := DropFrom(s, 3, Descending);
    assert r[0] == s[0] && r[1] == s[1] && r[2] == Drop(s[2]) && r[3] == s[3];
  }

  /** `keepHigh` and `keepLow` are not complementary on ties: of two equal
      slots, slot 0 comes first in both stable sorts, so `keepHigh(1)` and
      `keepLow(1)` both keep slot 0 and both drop slot 1. */
  lemma KeepTiesOverlap()
    ensures var s := FreshSlots([5, 5]);
      && KeepHighSlots(s, 1) == [s[0], Drop(s[1])]
      && KeepLowSlots(s, 1) == [s[0], Drop(s[1])]
  {
    var s := FreshSlots([5, 5]);
    var vs := [5, 5];
    assert Values(s) == vs;
    assert vs[1..] == [5] && vs[..1] == [5];
    assert Rank(vs, 0, Descending) == 0 && Rank(vs, 1, Descending) == 1;
    assert Rank(vs, 0, Ascending) == 0 && Rank(vs, 1, Ascending) == 1;
  }
}
