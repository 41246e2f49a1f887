/** `DiceRoller.explode(times, conditionals)`: after each slot that matches
    when the modifier starts, a chain of new slots is inserted. A new value is
    drawn while the chain is shorter than `times` and its newest value matches;
    the slot that triggered a draw is marked `!`. Insertion shifts the later
    slots up by one position, so the slots form a sequence here. */
module Explode {
  import opened Common
  import opened Conditions
  import opened Random
  import opened Slots

  /** A slot that triggered a draw: marked `!`, nothing else changes. */
  function Exploded(x: Slot): Slot {
    x.(marks := AddMark(x.marks, '!'))
  }

  /** The `while` loop for one slot, from its `i`-th draw on: `cur` is the
      newest slot of the chain and `newRoll` its value. The result is the chain
      from `cur` on. */
  function Chain(cur: Slot, newRoll: int, i: nat, times: int, conds: seq<Conditional>,
                 min: int, max: int, tape: Tape): (r: Drawn<seq<Slot>>)
    decreases times - i
    ensures |r.out| >= 1
  {
    if i < times && Matches(newRoll, conds) then
      var v := Next(tape, min, max);
      var rest := Chain(Fresh(v), v, i + 1, times, conds, min, max, Rest(tape));
      Drawn([Exploded(cur)] + rest.out, rest.tape)
    else Drawn([cur], tape)
  }

  /** The slots after every slot of `s` has had its chain, slot by slot from
      the front (written from the back so that a prefix is a prefix). A slot
      that did not match at the start gets the one-slot chain. */
  function ExplodeSlots(s: seq<Slot>, times: int, conds: seq<Conditional>, min: int, max: int,
                        tape: Tape): (r: Drawn<seq<Slot>>)
    ensures |r.out| >= |s|
  {
    if s == [] then Drawn([], tape)
    else
      var pre := ExplodeSlots(s[..|s| - 1], times, conds, min, max, tape);
      var ch := Chain(s[|s| - 1], s[|s| - 1].value, 0, times, conds, min, max, pre.tape);
      Drawn(pre.out + ch.out, ch.tape)
  }

  /** `explode(times, conditionals)` on the slots of a non-static group. */
  function ExplodeAll(s: seq<Slot>, times: int, conds: seq<Conditional>, min: int, max: int,
                      tape: Tape): (r: Drawn<seq<Slot>>)
    ensures |r.out| >= |s|
  {
    ExplodeSlots(s, times, WithDefault(conds, max), min, max, tape)
  }

  /** Where each original slot ends up: the start of its chain. */
  function Heads(s: seq<Slot>, times: int, conds: seq<Conditional>, min: int, max: int,
                 tape: Tape): (h: seq<nat>)
    ensures |h| == |s|
  {
    if s == [] then []
    else Heads(s[..|s| - 1], times, conds, min, max, tape)
         + [|ExplodeSlots(s[..|s| - 1], times, conds, min, max, tape).out|]
  }

  /** One more slot: its chain follows the slots produced so far. */
  lemma ExplodeStep(s: seq<Slot>, k: nat, times: int, c: seq<Conditional>, min: int, max: int, tape: Tape)
    requires k < |s|
    ensures var pre := ExplodeSlots(s[..k], times, c, min, max, tape);
      var ch := Chain(s[k], s[k].value, 0, times, c, min, max, pre.tape);
      ExplodeSlots(s[..k + 1], times, c, min, max, tape) == Drawn(pre.out + ch.out, ch.tape)
  {
    assert s[..k + 1][..k] == s[..k];
  }

  /** One turn of the loop that builds a chain: the slots done so far
      followed by the rest of the chain stay the whole chain. */
  lemma ChainTurn(done: seq<Slot>, cur: Slot, newRoll: int, i: nat, times: int, c: seq<Conditional>,
                  min: int, max: int, tape: Tape, whole: Drawn<seq<Slot>>)
    requires i < times && Matches(newRoll, c)
    requires var ch := Chain(cur, newRoll, i, times, c, min, max, tape);
      done + ch.out == whole.out && ch.tape == whole.tape
    ensures var v := Next(tape, min, max);
      var rest := Chain(Fresh(v), v, i + 1, times, c, min, max, Rest(tape));
      (done + [Exploded(cur)]) + rest.out == whole.out && rest.tape == whole.tape
  {
    var v := Next(tape, min, max);
    var rest := Chain(Fresh(v), v, i + 1, times, c, min, max, Rest(tape));
    assert done + ([Exploded(cur)] + rest.out) == (done + [Exploded(cur)]) + rest.out;
  }

  /** When the loop stops, the newest slot ends the chain. */
  lemma ChainEnd(done: seq<Slot>, cur: Slot, newRoll: int, i: nat, times: int, c: seq<Conditional>,
                 min: int, max: int, tape: Tape, whole: Drawn<seq<Slot>>)
    requires !(i < times && Matches(newRoll, c))
    requires var ch := Chain(cur, newRoll, i, times, c, min, max, tape);
      done + ch.out == whole.out && ch.tape == whole.tape
    ensures done + [cur] == whole.out && tape == whole.tape
    ensures forall a, b :: a + done + [cur] + b == a + whole.out + b
  {
  }

  // ---------------------------------------------------------------------------
  // One chain
  // ---------------------------------------------------------------------------

  /** A new slot of a chain: fresh, and marked `!` when another follows it. */
  predicate Link(x: Slot, followed: bool) {
    x == (if followed then Exploded(Fresh(x.value)) else Fresh(x.value))
  }

  /** A chain grows exactly when fewer than `times` draws were made and the
      newest value matches; it has at most `times - i` new slots, each of
      which took one draw. */
  lemma {:induction false} ChainLength(cur: Slot, newRoll: int, i: nat, times: int, conds: seq<Conditional>,
                                       min: int, max: int, tape: Tape)
    decreases times - i
    ensures var r := Chain(cur, newRoll, i, times, conds, min, max, tape);
      && (|r.out| > 1 <==> i < times && Matches(newRoll, conds))
      && |r.out| - 1 <= (if times - i < 0 then 0 else times - i)
      && r.out[0] == (if |r.out| > 1 then Exploded(cur) else cur)
      && r.tape == Skip(|r.out| - 1, tape)
  {
    if i < times && Matches(newRoll, conds) {
      var v := Next(tape, min, max);
      ChainLength(Fresh(v), v, i + 1, times, conds, min, max, Rest(tape));
    }
  }

  /** The new slots of a chain are fresh draws read from the tape in order,
      each marked `!` exactly when another slot follows it. */
  lemma {:induction false} ChainLinks(cur: Slot, newRoll: int, i: nat, times: int, conds: seq<Conditional>,
                                      min: int, max: int, tape: Tape)
    decreases times - i
    ensures var r := Chain(cur, newRoll, i, times, conds, min, max, tape);
      forall j :: 1 <= j < |r.out| ==>
        Link(r.out[j], j + 1 < |r.out|) && r.out[j].value == Next(Skip(j - 1, tape), min, max)
  {
    if i < times && Matches(newRoll, conds) {
      var v := Next(tape, min, max);
      ChainLinks(Fresh(v), v, i + 1, times, conds, min, max, Rest(tape));
      ChainLength(Fresh(v), v, i + 1, times, conds, min, max, Rest(tape));
      var rest := Chain(Fresh(v), v, i + 1, times, conds, min, max, Rest(tape));
      var r := Chain(cur, newRoll, i, times, conds, min, max, tape);
      assert r.out == [Exploded(cur)] + rest.out;
      forall j | 1 <= j < |r.out|
        ensures Link(r.out[j], j + 1 < |r.out|) && r.out[j].value == Next(Skip(j - 1, tape), min, max)
      {
        assert r.out[j] == rest.out[j - 1];
        if j > 1 {
          assert Skip(j - 1, tape) == Skip(j - 2, Rest(tape));
        }
      }
    }
  }

  /** Both halves of the `while` test: a chain draws again only after a
      matching value (`newRoll` before the first new slot, then every new slot
      but the last), and a chain with fewer than `times - i` new slots ends
      because its newest value does not match. */
  lemma {:induction false} ChainStops(cur: Slot, newRoll: int, i: nat, times: int, conds: seq<Conditional>,
                                      min: int, max: int, tape: Tape)
    decreases times - i
    ensures var r := Chain(cur, newRoll, i, times, conds, min, max, tape);
      && (|r.out| > 1 ==> Matches(newRoll, conds))
      && (forall j :: 1 <= j < |r.out| - 1 ==> Matches(r.out[j].value, conds))
      && (|r.out| - 1 < times - i ==>
            !Matches(if |r.out| == 1 then newRoll else r.out[|r.out| - 1].value, conds))
  {
    if i < times && Matches(newRoll, conds) {
      var v := Next(tape, min, max);
      ChainStops(Fresh(v), v, i + 1, times, conds, min, max, Rest(tape));
      ChainLength(Fresh(v), v, i + 1, times, conds, min, max, Rest(tape));
      var rest := Chain(Fresh(v), v, i + 1, times, conds, min, max, Rest(tape));
      var r := Chain(cur, newRoll, i, times, conds, min, max, tape);
      assert r.out == [Exploded(cur)] + rest.out;
      assert rest.out[0].value == v;
      forall j | 1 <= j < |r.out| - 1
        ensures Matches(r.out[j].value, conds)
      {
        assert r.out[j] == rest.out[j - 1];
      }
    }
  }

  // ---------------------------------------------------------------------------
  // All slots
  // ---------------------------------------------------------------------------

  /** `explode` takes one draw per inserted slot. */
  lemma {:induction false} ExplodeTape(s: seq<Slot>, times: int, conds: seq<Conditional>, min: int, max: int,
                                       tape: Tape)
    ensures var r := ExplodeSlots(s, times, conds, min, max, tape);
      r.tape == Skip(|r.out| - |s|, tape)
  {
    if s != [] {
      var n := |s| - 1;
      var pre := ExplodeSlots(s[..n], times, conds, min, max, tape);
      ExplodeTape(s[..n], times, conds, min, max, tape);
      var b := |pre.out| - n;
      assert pre.tape == Skip(b, tape);
      var ch := Chain(s[n], s[n].value, 0, times, conds, min, max, pre.tape);
      ChainLength(s[n], s[n].value, 0, times, conds, min, max, pre.tape);
      var a := |ch.out| - 1;
      assert ch.tape == Skip(a, pre.tape);
      var r := ExplodeSlots(s, times, conds, min, max, tape);
      assert r == Drawn(pre.out + ch.out, ch.tape);
      calc {
        r.tape;
        Skip(a, Skip(b, tape));
        Skip(a + b, tape);
        { assert |r.out| - |s| == a + b; }
        Skip(|r.out| - |s|, tape);
      }
    } else {
      assert Skip(0, tape) == tape;
    }
  }

  /** One chain of `explode`: the original slot `x` comes first, marked `!`
      exactly when a new slot follows it; the chain has at most `times` new
      slots, and has some exactly when `times > 0` and `x` matched; each new
      slot is a fresh in-range draw marked `!` exactly when another new slot
      follows it; every new slot but the last matches, so the chain goes on
      only past matching values; a chain with fewer than `times` new slots
      ends with a value that does not match. */
  predicate ChainOk(ch: seq<Slot>, x: Slot, times: int, c: seq<Conditional>, min: int, max: int) {
    && ch != []
    && ch[0] == (if |ch| > 1 then Exploded(x) else x)
    && |ch| - 1 <= (if times < 0 then 0 else times)
    && (|ch| > 1 <==> 0 < times && Matches(x.value, c))
    && (forall j :: 0 < j < |ch| ==> Link(ch[j], j + 1 < |ch|) && InDrawRange(ch[j].value, min, max))
    && (forall j :: 0 < j < |ch| - 1 ==> Matches(ch[j].value, c))
    && (|ch| - 1 < times ==> !Matches(ch[|ch| - 1].value, c))
  }

  /** Every chain produced by `Chain` from an original slot is `ChainOk`. */
  lemma ChainSpec(x: Slot, times: int, c: seq<Conditional>, min: int, max: int, tape: Tape)
    ensures ChainOk(Chain(x, x.value, 0, times, c, min, max, tape).out, x, times, c, min, max)
  {
    ChainLength(x, x.value, 0, times, c, min, max, tape);
    ChainLinks(x, x.value, 0, times, c, min, max, tape);
    ChainStops(x, x.value, 0, times, c, min, max, tape);
  }

  /** `out` is the chains of the slots `s` laid end to end, the chain of slot
      `k` starting at `h[k]`: the last chain runs from the last head to the
      end, and what precedes it is the chains of the earlier slots. */
  predicate ChainsOk(out: seq<Slot>, s: seq<Slot>, h: seq<nat>, times: int, c: seq<Conditional>, min: int, max: int)
    decreases |s|
  {
    && |h| == |s|
    && (s == [] ==> out == [])
    && (s != [] ==>
          var n := |s| - 1;
          && h[n] <= |out|
          && ChainOk(out[h[n]..], s[n], times, c, min, max)
          && ChainsOk(out[..h[n]], s[..n], h[..n], times, c, min, max))
  }

  /** `explode` lays the chains of the original slots end to end, in slot
      order, each starting at its head (`ChainsOk`). */
  lemma {:induction false} ExplodeChains(s: seq<Slot>, times: int, conds: seq<Conditional>, min: int, max: int,
                                         tape: Tape)
    ensures ChainsOk(ExplodeSlots(s, times, conds, min, max, tape).out, s,
                     Heads(s, times, conds, min, max, tape), times, conds, min, max)
  {
    if s != [] {
      var n := |s| - 1;
      var pre := ExplodeSlots(s[..n], times, conds, min, max, tape);
      var hs := Heads(s[..n], times, conds, min, max, tape);
      ExplodeChains(s[..n], times, conds, min, max, tape);
      var ch := Chain(s[n], s[n].value, 0, times, conds, min, max, pre.tape);
      ChainSpec(s[n], times, conds, min, max, pre.tape);
      var out := pre.out + ch.out;
      var h := hs + [|pre.out|];
      assert out[|pre.out|..] == ch.out;
      assert out[..|pre.out|] == pre.out;
      assert h[..n] == hs;
    }
  }

  /** A chain may not go on past a value that does not match: 6, 3, 5 under
      `= 6` with `times` 2 is not a chain, since the 3 would have stopped the
      loop. */
  lemma ChainNeedsMatch()
    ensures !ChainOk([Exploded(Fresh(6)), Exploded(Fresh(3)), Fresh(5)], Fresh(6), 2, [Conditional("=", 6)], 1, 6)
  {
    var ch := [Exploded(Fresh(6)), Exploded(Fresh(3)), Fresh(5)];
    assert ch[1].value == 3 && 0 < 1 < |ch| - 1;
    assert !Matches(ch[1].value, [Conditional("=", 6)]);
  }

  /** The explosion scenario `1d6!`: a 6 followed by a 3 gives two slots
      with a total of 9; only the 6 is marked `!`, since the 3 triggers no
      further draw. */
  lemma ExplodeSixThenThree()
    ensures var r := ExplodeAll(FreshSlots([6]), 1, [], 1, 6, Tape([3], 0));
      && Values(r.out) == [6, 3]
      && r.out[0].marks == ['!'] && r.out[1].marks == []
      && Total(r.out) == 9
  {
    var s := FreshSlots([6]);
    var c := WithDefault([], 6);
    assert s[..0] == [];
    var ch := Chain(s[0], 6, 0, 1, c, 1, 6, Tape([3], 1));
    assert Chain(s[0], 6, 0, 1, c, 1, 6, Tape([3], 0)).out == [Exploded(s[0]), Fresh(3)];
  }
}
