# Dice roller: a Dafny model of `src/roller/dice.ts`

This project models the evaluator behind dice-notation expressions such as
`3d6kh2 + 1d4!`. An external lexer has already turned the expression into
postfix lexemes. The model covers the three classes of `src/roller/dice.ts`:

- **`DiceRoller`** (module `Roller`, class `DiceRoller`). One dice group and
  its `results` map of slots. A slot holds `usable`, `value`, the displayed
  number `shown` and the insertion-ordered mark set.
  - The class's methods change the slots in place: `keepHigh`, `keepLow`,
    `reroll`, `explode`, `explodeAndCombine`, `applyConditions`,
    `applyModifier`, `_roll` and `roll`.
  - Each method is proved against a function on values: modules `Keep`,
    `Reroll`, `Explode`, `Combine`, `Success` and `Groups`. Lemmas about those
    functions state what the source promises.
  - `checkCondition` is in `Conditions`. The constructor's face normalisation
    is in `Faces`. The slot record, `result` and `display` are in `Slots` and
    `Groups`.
- **`StuntRoller`**. A group flagged `stunt`, always rolled as `3d6`. It has
  the `doubles` rule and its own display (`Slots.Doubles`,
  `Slots.StuntRender`, `Roller.DiceRoller.Stunt`).
- **`StackRoller`** (module `Stack`, class `StackRoller`). The postfix
  machine that `roll()` runs over the lexemes.
  - It creates each group once per lexeme position and reuses it on later
    rolls. Modifier lexemes attach to the last group created. Operators fold
    two entries into a static value.
  - It keeps the latest stunt-point note and reads the final `result`.
  - It also builds the `tooltip` and exchanges `toResult` / `applyResult`
    snapshots.
  - The class is proved step by step against the machine functions of
    `Postfix`.

Randomness is a parameter. `Random.Rng` holds a tape of values.
`getRandomBetween(min, max)` takes the next value when it lies in the range
that the formula `floor(random * (max - min + 1)) + min` can produce, and
`min` otherwise. This lets the model state exact draw sequences, and it keeps
every draw in range whatever the tape holds.

The model follows the code where it behaves differently from what a reader
of the method names would expect:

- `keepLow(n)` slices the ascending sort at `n - size`. For `0 < n < size`
  this keeps the `n` lowest slots, but `n == size` drops every slot and
  `n > size` keeps only the lowest `n - size`. See `Keep.KeepLowAllDropped`.
- In `explodeAndCombine` the draw counter `i` is shared by all matching
  slots. It is not reset per slot, so a later slot may get only its one
  mandatory extra draw. See `Combine.CombineSharedCounter`.
- `applyResult` restores `result` only when the saved value is truthy. A
  saved `0` is not restored. See `Postfix.ResultRoundTrip`.
- The tie-breaking of the stable sorts means `keepHigh(n)` and
  `keepLow(size - n)` need not keep complementary slots when values repeat.
  On two slots of 5, `keepHigh(1)` and `keepLow(1)` both keep slot 0 and
  both drop slot 1. See `Keep.KeepTiesOverlap`.

## Model

| member | source | states |
|---|---|---|
| Conditions.Some | src/roller/dice.ts:370-398 | holds iff some condition in the list holds for the value |
| Conditions.CheckCondition | src/roller/dice.ts:365-369 | an empty list yields the value itself; a non-empty list yields a boolean |
| Conditions.CheckConditionTruthy | src/roller/dice.ts:365-399 | the verdict is truthy iff the value is non-zero (empty list) or some pair holds (non-empty list) |
| Conditions.OperatorTable | src/roller/dice.ts:375-395 | `=!` behaves as `!=`; any operator outside the table, including the negate markers `-=` and `=-`, never holds |
| Conditions.WithDefault | src/roller/dice.ts:147-152 | an empty list becomes "equals the given face" (the lowest face for `reroll`, the highest for `explode` at lines 238-243 and `explodeAndCombine` at lines 194-199); a given list is kept |
| Common.IntTextRoundTrip | src/roller/dice.ts:524 | the plain decimal text of a folded value reads back as that same integer, so the static group an operator pushes holds its value; this is what `${result}` prints for magnitudes below 10^21 only (see "## Left out") |
| Common.SliceStart | src/roller/dice.ts:108 | the start index of `Array.slice(k)` for a negative, in-range or too-large `k` |
| Common.ReplaceFirstSpec | src/roller/dice.ts:450 | `String.replace` with a string pattern replaces only the first occurrence, and leaves the text unchanged when there is none |
| Random.Next | src/roller/dice.ts:400-402 | every draw lies in the range the formula can produce, and an in-range tape value is drawn as is |
| Random.Draws | src/roller/dice.ts:288-290 | `n` draws give `n` values, each in range |
| Random.DrawsFromTape | src/roller/dice.ts:288-290 | when the tape holds `n` in-range values, the draws are exactly those values |
| Random.DrawsSnoc | src/roller/dice.ts:288-290 | one more draw appends the next tape draw after the first `n` |
| Random.GainDraws | src/roller/dice.ts:213-221 | the amount added by `k` combined draws is the sum of those draws |
| Random.Rng.constructor | src/roller/dice.ts:400-402 | the oracle starts at the head of the given tape |
| Random.Rng.Between | src/roller/dice.ts:400-402 | returns an in-range draw and consumes exactly one tape value |
| Faces.Normalise | src/roller/dice.ts:65 | a count of 0 becomes 1 |
| Faces.NormaliseRange | src/roller/dice.ts:62-78 | `F` gives [-1, 1]; `%` gives [1, 100]; a negative max without min gives [max, -1]; a positive max without min gives [1, max]; a given pair is ordered low to high |
| Faces.NormaliseInverted | src/roller/dice.ts:74-78 | the faces end with max below min exactly for a bare `0` max, which gives min 1, max 0 |
| Faces.UnmatchedFaces | src/roller/dice.ts:62-64 | text the face pattern does not match rolls one die with both faces 1 |
| Slots.AddMarkSpec | src/roller/dice.ts:110-113 | adding a mark to the set keeps the earlier marks in order, appends a new mark once, keeps marks duplicate-free and is idempotent |
| Slots.Fresh | src/roller/dice.ts:296-303 | a new slot is usable, unmarked and holds the drawn value |
| Slots.FreshSlots | src/roller/dice.ts:294-306 | rebuilding the results gives one fresh slot per raw value, in order |
| Slots.Total | src/roller/dice.ts:27-35 | defines `result` of a non-static group: each slot counts its value when usable and 0 otherwise, summed in slot order; it has no contract of its own, and the lemmas below state its properties |
| Slots.TotalNoneUsable | src/roller/dice.ts:31-34 | a group whose slots are all dropped or failed has `result` 0 |
| Slots.TotalAppend | src/roller/dice.ts:31-34 | the sum of usable values splits over concatenation |
| Slots.TotalPermutation | src/roller/dice.ts:31-34 | `result` does not depend on the order of the slots |
| Slots.TotalBounds | src/roller/dice.ts:27-35 | when `lo <= 0 <= hi` and every usable value lies in [lo, hi], `result` lies in [size * lo, size * hi] |
| Slots.Render | src/roller/dice.ts:36-46 | the `display` of a non-static group is a bracketed list, `[]` when there are no slots; `Groups.KeepThreeDisplay` shows an entry per slot, each its number followed by its marks |
| Slots.StuntRender | src/roller/dice.ts:429-439 | the stunt display is a bracketed list, `[]` when there are no slots |
| Slots.StuntRenderEntries | src/roller/dice.ts:429-439 | one entry per slot, in order: the first is its value suffixed `S` exactly when the group has doubles, every other is its bare value |
| Slots.StuntRenderAsRender | src/roller/dice.ts:429-439 | on fresh unmarked slots the stunt display equals the ordinary display with an `S` mark on the first slot when there are doubles, and without it otherwise |
| Slots.StuntRenderDoubles | src/roller/dice.ts:429-439 | a stunt roll of 4, 4, 2 is displayed `[4S, 4, 2]` |
| Slots.StuntRenderPlain | src/roller/dice.ts:429-439 | a stunt roll of 1, 2, 3 is displayed `[1, 2, 3]` |
| Slots.DoublesOfThree | src/roller/dice.ts:411-419 | for three slots, `doubles` holds iff two of the (usable ? value : 0) entries are equal |
| Keep.RankOrder | src/roller/dice.ts:107 | a slot that sorts earlier (better value, or equal value and lower index) has a lower rank: the sort is stable |
| Keep.RankInjective | src/roller/dice.ts:107 | distinct slots have distinct ranks |
| Keep.RankedBelowCount | src/roller/dice.ts:106-109 | exactly `start` slots rank below `start`, so the slice keeps exactly that many |
| Keep.DropFromKeepsValues | src/roller/dice.ts:109-113 | dropping slots changes no value and no displayed number |
| Keep.KeptBeatsDropped | src/roller/dice.ts:107 | every kept slot is at least as good as every dropped one, and ties are broken by position |
| Keep.DropFrom | src/roller/dice.ts:106-113 | every slot is either left as it was or dropped (`usable` cleared, `d` added), and the slot count is kept |
| Keep.KeepHighSlots | src/roller/dice.ts:125-133 | `keepHigh(n)` leaves every slot as it was or drops it, and keeps the slot count |
| Keep.KeepLowSlots | src/roller/dice.ts:106-114 | `keepLow(n)` leaves every slot as it was or drops it, and keeps the slot count |
| Keep.DropFromText | src/roller/dice.ts:109-113 | on slots without `d`, a slot's display text gains a trailing `d` exactly when the slice dropped it; exactly then it stops counting, and every other slot keeps its text |
| Keep.KeepHighText | src/roller/dice.ts:125-133 | on undropped slots, `keepHigh(n)` leaves exactly `min(n, size)` slots counting, with their text unchanged; every other slot shows its old text plus `d` |
| Keep.KeepHighThreeOfFour | src/roller/dice.ts:125-133 | `keepHigh(3)` on the draws 2, 5, 1, 6 drops only the 1 |
| Keep.KeepTiesOverlap | src/roller/dice.ts:96-134 | on two slots of 5, `keepHigh(1)` and `keepLow(1)` both keep slot 0 and both drop slot 1, so they are not complementary on ties |
| Keep.KeepHighAll | src/roller/dice.ts:125-133 | `keepHigh(n)` with `n` at least the slot count drops nothing |
| Keep.KeepHighDrops | src/roller/dice.ts:125-133 | `keepHigh(n)` marks a slot dropped exactly when its descending rank is `n` or more |
| Keep.KeepLowDrops | src/roller/dice.ts:106-114 | `keepLow(n)` with `0 < n < size` marks a slot dropped exactly when its ascending rank is `n` or more |
| Keep.KeepLowAllDropped | src/roller/dice.ts:106-114 | `keepLow(size)` drops every slot |
| Reroll.Selection | src/roller/dice.ts:157-160 | the batch is exactly the slots whose value matches at the start |
| Reroll.PassSpec | src/roller/dice.ts:168-174 | one pass redraws every slot of the batch (mark `r`, in-range value, shown number kept) and leaves every other slot alone |
| Reroll.PassTape | src/roller/dice.ts:168-174 | one pass consumes one draw per slot of the batch |
| Reroll.PassesStop | src/roller/dice.ts:161-175 | both halves of the `while` test: the loop ends in the state its passes reach, some batch slot still matched before each pass it ran, and it stops before `times` only when no batch slot matches |
| Reroll.PassesFrame | src/roller/dice.ts:161-175 | slots outside the batch never change |
| Reroll.PassesRedraw | src/roller/dice.ts:161-175 | after at least one pass every slot of the batch holds a redrawn in-range value |
| Reroll.PassesTape | src/roller/dice.ts:161-175 | the passes consume passes times batch-size draws |
| Reroll.Passes | src/roller/dice.ts:161-175 | the loop keeps the slot count and never undoes a pass; when it runs no pass, the slots and the tape are unchanged |
| Reroll.RerollPasses | src/roller/dice.ts:135-180 | the slot count is kept; there are at most `times` passes; no pass happens iff `times <= 0` or nothing matched; stopping early means no batch slot still matches |
| Reroll.RerollLoop | src/roller/dice.ts:161-175 | `reroll` ends in the state its passes reach, and runs each pass only while some batch slot still matches; so the pass count is the first that reaches `times` or leaves no batch slot matching |
| Reroll.RerollSlots | src/roller/dice.ts:135-180 | `reroll` keeps the slot count; with no pass run, the slots and the tape are unchanged |
| Reroll.RerollSlotsChanged | src/roller/dice.ts:135-180 | non-matching slots are untouched; matching slots are redrawn in range with mark `r` and keep their shown number; the tape advances by passes times batch size |
| Reroll.RerollOnesOnce | src/roller/dice.ts:135-180 | rerolling the ones of [1, 4, 1] on a d10 with draws 5, 2 gives [5, 4, 2] with `r` on the first and last slots |
| Explode.ChainLength | src/roller/dice.ts:265-279 | a slot grows a chain iff it matches and `times > 0`; a chain holds at most `times` new slots; its head is marked `!` iff something follows; the tape advances by one per new slot |
| Explode.ChainLinks | src/roller/dice.ts:265-279 | each inserted slot holds the next draw, and is marked `!` exactly when another slot follows it in the chain |
| Explode.ChainStops | src/roller/dice.ts:265-279 | both halves of the `while` test: a chain draws again only after a matching value (the start value, then every new slot but the last), and a chain with fewer than `times - i` new slots ends on a value that does not match |
| Explode.ExplodeTape | src/roller/dice.ts:256-282 | the slot count grows by exactly the number of draws |
| Explode.Chain | src/roller/dice.ts:265-279 | one slot's chain is never empty; `Explode.ChainLength`, `Explode.ChainLinks` and `Explode.ChainStops` state what it holds |
| Explode.ExplodeAll | src/roller/dice.ts:225-283 | `explode` never removes a slot |
| Explode.ChainSpec | src/roller/dice.ts:256-282 | each chain starts with its original slot, marked `!` iff it grew; it grows iff `times > 0` and the slot matches; it is followed by fresh usable in-range slots, all but the last of which match; it has at most `times` new slots, and fewer only when the last one does not match |
| Explode.ExplodeChains | src/roller/dice.ts:248-282 | the result is the original slots in order, each followed directly by its own chain, and each chain is as `Explode.ChainSpec` states |
| Explode.ChainNeedsMatch | src/roller/dice.ts:265 | a chain that goes on past a value the conditions reject, such as 6, 3, 5 under `= 6` with `times` 2, does not satisfy the chain description of `Explode.ExplodeChains` |
| Explode.ExplodeSixThenThree | src/roller/dice.ts:225-283 | exploding [6] on a d6 with draw 3 gives [6!, 3] |
| Combine.BoostCount | src/roller/dice.ts:216-222 | the extra draws stop at `times` and consume one tape value each |
| Combine.BoostValue | src/roller/dice.ts:216-222 | the slot's value grows by the sum of the extra draws |
| Combine.BoostFields | src/roller/dice.ts:216-222 | usability and marks stay; the shown number follows the new sum |
| Combine.BoostStops | src/roller/dice.ts:216-222 | both halves of the inner `while` test: every newest draw before the last one taken matched, and stopping below `times` means the last one did not |
| Combine.Boost | src/roller/dice.ts:216-222 | defines the inner `while` loop; it has no contract of its own, and `Combine.BoostCount`, `Combine.BoostValue`, `Combine.BoostFields` and `Combine.BoostStops` state what it does |
| Combine.CombineOne | src/roller/dice.ts:209-222 | defines one turn of the `forEach`; it has no contract of its own, and `Combine.CombineOneCount` and `Combine.CombineOneSlot` state what it does |
| Combine.CombineOneCount | src/roller/dice.ts:209-222 | a matching slot takes the next draws on the tape: every one but the last matched, and when the counter ends below `times` the last did not; it takes one mandatory draw and then extra draws up to the shared counter's limit |
| Combine.CombineOneSlot | src/roller/dice.ts:209-222 | a matching slot gains `!`, keeps its usability and shows its new sum, which is its old value plus the draws |
| Combine.CombineSlots | src/roller/dice.ts:204-223 | explodeAndCombine keeps the slot count |
| Combine.CombineFrame | src/roller/dice.ts:204-223 | matching slots gain `!` and show their new value; every other slot is untouched |
| Combine.CombineCount | src/roller/dice.ts:204-223 | the shared counter ends between the match count and the match count plus max(`times` − 1, 0), and equals the number of draws |
| Combine.CombineTotal | src/roller/dice.ts:204-223 | on usable slots, `result` grows by exactly the sum of the draws |
| Combine.CombineSharedCounter | src/roller/dice.ts:181-224 | with two sixes and `times` 2, the second six gets only its mandatory draw: [13, 12] |
| Combine.CombineAll | src/roller/dice.ts:181-224 | `explodeAndCombine` keeps the slot count |
| Success.Negate | src/roller/dice.ts:317-319 | picks the first `-=` / `=-` condition, if any |
| Success.Judge | src/roller/dice.ts:316-336 | a judged slot keeps its displayed number, never becomes usable, and counts 1 or -1 when it still counts |
| Success.Judged | src/roller/dice.ts:315-337 | judges every slot, one for one |
| Success.JudgeSpec | src/roller/dice.ts:316-336 | a slot equal to the negate comparer becomes -1 marked `-`; otherwise a passing slot becomes 1 marked `*` and a failing one becomes unusable |
| Success.JudgedUnit | src/roller/dice.ts:315-337 | every usable slot afterwards is 1 or -1 |
| Success.JudgedTotal | src/roller/dice.ts:315-337 | the success count lies in [-size, size] |
| Success.JudgeKeepsDropped | src/roller/dice.ts:316-336 | a dropped slot stays dropped and counts 0 |
| Groups.Find | src/roller/dice.ts:530 | finds the position of a modifier kind, or reports that the kind is absent |
| Groups.SetModifierSpec | src/roller/dice.ts:530-533 | `Map.set` stores the modifier once under its kind, keeps an existing kind's position, appends a new kind at the end and leaves the other kinds alone |
| Groups.Result | src/roller/dice.ts:27-35 | defines `result`: a static group's literal, else `Slots.Total` of the slots; it has no contract of its own |
| Groups.Display | src/roller/dice.ts:36-46 | a stunt or dice group displays a bracketed list; `Groups.DisplayStatic` covers a static group |
| Groups.DisplayStatic | src/roller/dice.ts:36-39 | a static group displays the decimal text of its literal, which reads back as its `result` |
| Groups.Applied | src/roller/dice.ts:338-363 | a modifier on a static group leaves the slots and the tape as they were |
| Groups.ApplyFrom | src/roller/dice.ts:308-310 | defines the loop over the `modifiers` Map; it has no contract of its own, and `Groups.ApplyFromAppend` and `Groups.StaticIgnoresModifiers` state what it does |
| Groups.RollGroup | src/roller/dice.ts:292-314 | `roll()` returns one raw value for a static group and `rolls` values for dice |
| Groups.RawRoll | src/roller/dice.ts:284-291 | a static group yields its literal and draws nothing; dice yield `rolls` in-range draws |
| Groups.StaticIgnoresModifiers | src/roller/dice.ts:97-100 | on a static group every attached modifier is a no-op |
| Groups.RollStatic | src/roller/dice.ts:284-314 | rolling a static group draws nothing and leaves one slot; its `result` is its literal |
| Groups.ApplyFromAppend | src/roller/dice.ts:308-310 | attaching a new kind applies its modifier after all earlier ones |
| Groups.RollFresh | src/roller/dice.ts:292-306 | with no modifiers or conditions, `roll()` gives exactly `rolls` fresh usable, unmarked slots equal to the in-range raw draws |
| Groups.RollSuccesses | src/roller/dice.ts:311 | with conditions, `result` lies in [-size, size] |
| Groups.KeepDrawsNothing | src/roller/dice.ts:96-134 | keep modifiers draw nothing and keep the slot count |
| Groups.RollKeepThree | src/roller/dice.ts:292-314 | rolling `4d6kh3` on the draws 2, 5, 1, 6 gives slots 2, 5, a dropped 1 and 6 |
| Groups.KeepThreeDisplay | src/roller/dice.ts:27-46 | `4d6kh3` on the draws 2, 5, 1, 6 displays `[2, 5, 1d, 6]` and has `result` 13 |
| Roller.DiceRoller.constructor | src/roller/dice.ts:47-95 | a new group keeps its text, faces and conditions, has no modifiers, and holds one fresh slot per raw draw |
| Roller.DiceRoller.Stunt | src/roller/dice.ts:405-410 | a stunt group is built as three d6 whatever its text, and keeps its text for the tooltip |
| Roller.DiceRoller.SetModifier | src/roller/dice.ts:530-533 | sets the modifier of one kind and leaves the slots alone |
| Roller.DiceRoller.DropRanked | src/roller/dice.ts:106-114 | marks dropped exactly the slots whose rank reaches the slice start |
| Roller.DiceRoller.KeepHigh | src/roller/dice.ts:116-134 | equals `Keep.KeepHighSlots` on dice, and does nothing on a static group |
| Roller.DiceRoller.KeepLow | src/roller/dice.ts:96-115 | equals `Keep.KeepLowSlots` on dice, and does nothing on a static group |
| Roller.DiceRoller.Reroll | src/roller/dice.ts:135-180 | the slots and tape afterwards are those of `Reroll.RerollSlots`; a static group is untouched |
| Roller.DiceRoller.RedrawBatch | src/roller/dice.ts:168-174 | one pass over the batch equals `Reroll.Pass` |
| Roller.DiceRoller.Explode | src/roller/dice.ts:225-283 | the slots and tape afterwards are those of `Explode.ExplodeAll`; a static group is untouched |
| Roller.DiceRoller.ExplodeKey | src/roller/dice.ts:256-282 | handles one triggering slot: its chain is spliced in at `key + inserted`, and the count of new slots is returned |
| Roller.DiceRoller.ExplodeChain | src/roller/dice.ts:258-279 | the loop replaces the slot at `p` with its whole chain |
| Roller.DiceRoller.MarkAndDraw | src/roller/dice.ts:266-277 | marks the current slot `!` and inserts the next draw as a fresh slot right after it |
| Roller.DiceRoller.ExplodeAndCombine | src/roller/dice.ts:181-224 | the slots and tape afterwards are those of `Combine.CombineAll`; a static group is untouched |
| Roller.DiceRoller.CombineSelected | src/roller/dice.ts:204-223 | the loop over the matching slots equals `Combine.CombineSlots` |
| Roller.DiceRoller.CombineNext | src/roller/dice.ts:209-223 | handles one slot: boosts it if it matched at the start, and passes the shared counter on |
| Roller.DiceRoller.CombineInto | src/roller/dice.ts:209-222 | boosts one slot in place and returns the advanced shared counter |
| Roller.DiceRoller.ApplyConditions | src/roller/dice.ts:315-337 | the slots afterwards are `Success.Judged` of the old slots |
| Roller.DiceRoller.Draw | src/roller/dice.ts:284-291 | returns the raw draws of `Groups.RawRoll` |
| Roller.DiceRoller.ApplyModifier | src/roller/dice.ts:338-363 | dispatches on the kind to the matching modifier |
| Roller.DiceRoller.Roll | src/roller/dice.ts:292-314 | the raw draws, slots and tape afterwards are those of `Groups.RollGroup` on the group's state |
| Roller.DiceRoller.DisplayText | src/roller/dice.ts:36-46 | returns `Groups.Display` of the group's state, whose properties `Groups.DisplayStatic`, `Keep.KeepHighText` and `Groups.KeepThreeDisplay` state |
| Roller.DiceRoller.StuntDisplay | src/roller/dice.ts:429-439 | bare values in brackets, with `S` after the first one when `doubles` holds |
| Postfix.Pop | src/roller/dice.ts:496-497 | popping an empty stack gives `undefined`; otherwise the stack is the rest plus the top |
| Postfix.PopSound | src/roller/dice.ts:496-497 | a popped entry names an existing group, and the rest of the stack still does |
| Postfix.RollEntry | src/roller/dice.ts:502-518 | rolling an entry keeps the stack, the index and the group count |
| Postfix.PushGroup | src/roller/dice.ts:602-616 | pushing a group keeps the machine well formed |
| Postfix.PushGroupSpec | src/roller/dice.ts:602-616 | a group is built only when `dice[index]` is empty and is reused otherwise; it is pushed and `index` grows by one; an unbuildable group stops the roll with the state unchanged |
| Postfix.ShapeOf | src/roller/dice.ts:62-78 | defines the faces a group text settles on, or none when the count is negative; it has no contract of its own, and `Postfix.PushGroupSpec` states how a push uses it |
| Postfix.NewGroup | src/roller/dice.ts:602-606 | defines a freshly built group: no modifiers, one `_roll`; it has no contract of its own |
| Postfix.AttachModifier | src/roller/dice.ts:526-601 | attaching a modifier keeps the machine well formed |
| Postfix.AttachSpec | src/roller/dice.ts:526-601 | a modifier lexeme sets its kind on `dice[index - 1]` only, leaving every other group, the stack and the tape alone; with no group yet it stops the roll |
| Postfix.Attachment | src/roller/dice.ts:526-601 | defines the Map entry a modifier lexeme stores; it has no contract of its own, and `Postfix.DropAsKeep` states its keep cases |
| Postfix.DropAsKeep | src/roller/dice.ts:536-569 | `dl n` is stored as `kh (size - n)` and `dh n` as `kl (size - n)`; a missing count means 1 |
| Postfix.RollBoth | src/roller/dice.ts:502-524 | folding two entries keeps the machine well formed |
| Postfix.RollLeft | src/roller/dice.ts:511-524 | rolling the left operand and pushing the folded value keeps the machine well formed |
| Postfix.Fold | src/roller/dice.ts:496-525 | an operator lexeme keeps the machine well formed |
| Postfix.FoldLone | src/roller/dice.ts:496-501 | with at most one entry the operator pushes the popped entry back and changes nothing else |
| Postfix.FoldValues | src/roller/dice.ts:496-524 | two folded values are replaced by the operator applied to left and right |
| Postfix.FoldGroups | src/roller/dice.ts:496-524 | two groups are rolled right first, then left, and replaced by the operator applied to their results |
| Postfix.Step | src/roller/dice.ts:488-617 | each lexeme keeps the machine well formed |
| Postfix.StepKeeps | src/roller/dice.ts:488-617 | a lexeme never removes or replaces a group; a group lexeme advances `index` by one and the others leave it |
| Postfix.Run | src/roller/dice.ts:488-618 | the loop over the lexemes keeps the machine well formed |
| Postfix.RunKeeps | src/roller/dice.ts:488-618 | after the loop, `index` is the number of group lexemes and `dice` has grown only up to it |
| Postfix.Finish | src/roller/dice.ts:620-627 | the final pop keeps the machine well formed |
| Postfix.Evaluate | src/roller/dice.ts:485-628 | a whole `roll()` keeps the machine well formed |
| Postfix.EvaluateBuildsOnce | src/roller/dice.ts:485-628 | groups are built once per group lexeme and reused: a second roll of the same lexemes builds none |
| Postfix.EvaluateNote | src/roller/dice.ts:503-508 | the stunt-point note is empty or has the form ` - <value> Stunt Points`; which note it is, roll by roll, is stated by `Postfix.RollEntryNoteExact`, `Postfix.FoldStuntNote` and `Postfix.FinishNote` |
| Postfix.RollEntryNoteExact | src/roller/dice.ts:502-508 | rolling a group sets the note from its first slot exactly when it is a stunt group with doubles, and keeps the note otherwise |
| Postfix.FoldStuntNote | src/roller/dice.ts:502-517 | an operator over two groups (stunt or not) rolls right then left, so a left stunt group with doubles sets the note over a right one; with neither the note is kept |
| Postfix.FinishNote | src/roller/dice.ts:620-626 | the final roll sets the note by the same rule |
| Postfix.EvaluateNoStunt | src/roller/dice.ts:485-628 | with no stunt group and no `stunt` lexeme, a whole `roll()` leaves the note empty |
| Postfix.SubstitutedAbsent | src/roller/dice.ts:449-451 | groups whose text does not occur leave the tooltip text unchanged |
| Postfix.Substituted | src/roller/dice.ts:449-451 | defines the `forEach` of `tooltip`; it has no contract of its own, and `Postfix.SubstitutedAbsent` and `Postfix.SumTooltip` state what it does |
| Postfix.TooltipText | src/roller/dice.ts:446-453 | defines the `tooltip` getter; it has no contract of its own, and `Postfix.TooltipShape` states what it returns |
| Postfix.TooltipShape | src/roller/dice.ts:446-453 | a cached tooltip is returned verbatim; otherwise the tooltip starts with the original text and a newline |
| Postfix.ResultRoundTrip | src/roller/dice.ts:636-652 | applying a snapshot restores its tooltip exactly, restores a non-zero result and keeps the old one for 0 or none; a snapshot of another kind changes nothing |
| Postfix.ToResult | src/roller/dice.ts:636-642 | defines the snapshot; it has no contract of its own, and `Postfix.ResultRoundTrip` states how it round-trips |
| Postfix.ApplyResult | src/roller/dice.ts:643-652 | defines `applyResult` on the saved fields; it has no contract of its own, and `Postfix.ResultRoundTrip` states what it restores |
| Postfix.SumFirstRoll | src/roller/dice.ts:485-634 | `1d6 2 +` with draws 4, 5 builds two groups (the constructor's draw 4 is replaced by the roll's 5) and results in 7 |
| Postfix.SumSecondRoll | src/roller/dice.ts:485-634 | rolling it again with draw 3 reuses the groups and results in 5 |
| Postfix.SumRollAgain | src/roller/dice.ts:485-634 | any later roll of `1d6 2 +` consumes one draw and results in that draw plus 2 |
| Postfix.SumTooltip | src/roller/dice.ts:446-453 | the tooltip of `1d6+2` after a 5 is `1d6+2` then `[5]+2` on the next line |
| Postfix.LoneOperandResult | src/roller/dice.ts:496-501 | `3 +` returns the lone operand 3 |
| Stack.StackRoller.constructor | src/roller/dice.ts:467-484 | a new roller has an empty stack, no groups, no result and no cached tooltip |
| Stack.StackRoller.Roll | src/roller/dice.ts:485-634 | the state afterwards is `Postfix.Evaluate` of the old state; a finished roll sets `result` and clears the cached tooltip, and a roll that threw leaves both alone |
| Stack.StackRoller.Lexemes | src/roller/dice.ts:486-618 | the loop over the lexemes equals `Postfix.Run` |
| Stack.StackRoller.Finish | src/roller/dice.ts:620-628 | the final pop and roll equal `Postfix.Finish` |
| Stack.StackRoller.Step | src/roller/dice.ts:489-617 | one lexeme equals `Postfix.Step` |
| Stack.StackRoller.Push | src/roller/dice.ts:602-616 | a group lexeme equals `Postfix.PushGroup` |
| Stack.StackRoller.Attach | src/roller/dice.ts:526-601 | a modifier lexeme equals `Postfix.AttachModifier` |
| Stack.StackRoller.Fold | src/roller/dice.ts:496-525 | an operator lexeme equals `Postfix.Fold` |
| Stack.StackRoller.Operands | src/roller/dice.ts:502-524 | rolling both operands and folding equals `Postfix.RollBoth` |
| Stack.StackRoller.Left | src/roller/dice.ts:511-524 | the left operand's roll and the push equal `Postfix.RollLeft` |
| Stack.StackRoller.RollEntry | src/roller/dice.ts:502-518 | rolling one entry equals `Postfix.RollEntry` |
| Stack.StackRoller.Tooltip | src/roller/dice.ts:446-453 | returns `Postfix.TooltipText` of the current groups |
| Stack.StackRoller.ToResult | src/roller/dice.ts:636-642 | the snapshot holds the kind `dice`, the result and the tooltip |
| Stack.StackRoller.ApplyResult | src/roller/dice.ts:643-652 | result and cached tooltip afterwards are those of `Postfix.ApplyResult`; the stack and groups are untouched |

## Left out

- The regex check and match of the group text in the constructor (src/roller/dice.ts:53-64). The model takes the captured count, min and max, or an integer literal, and normalises those.
- The `Notice` raised by a modifier on a static group. The modifier is a no-op, as in the code.
- The `Math.random` formula of `getRandomBetween`. A tape of values stands in for it, and out-of-range tape values are read as `min`.
- Common.IntTextRoundTrip: the model prints every folded value as plain decimal digits. JavaScript prints `${result}` in exponent form (`1e+21`) once its magnitude reaches 10^21. The constructor's static test and the face pattern then fail to match, and the pushed group falls back to one die with both faces 1, whose `result` is 1. The model keeps the folded integer instead.
- The `/` and `^` operators and every non-integer result. Folded values and `result` are unbounded integers under `+`, `-` and `*`. Doubles lose precision beyond 2^53, and the model does not.
- `build`, `render`, `trigger`, `toLocaleString` and the `async` signatures. These are presentation and involve no concurrency.
- The NaN guard of `checkCondition`, which cannot fire on integers.
- `_insertIntoMap`, `GenericRoller`, the lexer and the `Lexeme` / `Conditional` types are not part of this model. `_insertIntoMap` is taken to insert at a position and shift later keys up by one.
- The `text` getter and the `lexeme` default parameter of the `DiceRoller` constructor. `StackRoller` does not use them.
- `StuntRoller.result` is the same as `DiceRoller.result`, so it has no member of its own.
- The `condition` case of `applyModifier` does nothing and is not a modifier kind here.
- A `TypeError` (rolling `undefined`, or a modifier before any group) is modelled as a roll that stops with `ok` false. The state changed up to that point is kept, and `result` and the cached tooltip are left as they were.
- A negative dice count, where `Array(n)` throws, is modelled the same way as a group that cannot be built.
- The static group an operator pushes is kept as its integer value. Rolling it draws nothing and yields its literal (`Groups.RollStatic`), and it never enters `dice`. So the operator lexeme's conditionals, applied to that one slot, do not change `result`.
- The default condition that `reroll`, `explode` and `explodeAndCombine` push into the modifier's own list is modelled as the effective list of each call. The faces never change, so later rolls see the same list.
