/** `DiceRoller.checkCondition`: does a value satisfy a list of comparison
    conditions, OR-combined? With no conditions the value itself is returned,
    so the caller sees JavaScript's `boolean | number` result. */
module Conditions {

  /** A `Conditional` of the lexer: an operator text and a number to compare
      against. The operator is kept as text: besides `=`, `!=`, `=!`, `<`,
      `<=`, `>`, `>=` the lexer also produces the negate marker `-=`/`=-`. */
  datatype Conditional = Conditional(operator: string, comparer: int)

  /** The `boolean | number` that `checkCondition` returns. */
  datatype Verdict = Flag(b: bool) | Bare(n: int)

  /** JavaScript truthiness of a verdict. */
  predicate Truthy(v: Verdict) {
    match v
    case Flag(b) => b
    case Bare(n) => n != 0
  }

  /** One comparison of the `switch` in `checkCondition`; an operator it does
      not list leaves `result` at false. */
  predicate Holds(value: int, c: Conditional) {
    if c.operator == "=" then value == c.comparer
    else if c.operator == "!=" || c.operator == "=!" then value != c.comparer
    else if c.operator == "<" then value < c.comparer
    else if c.operator == "<=" then value <= c.comparer
    else if c.operator == ">" then value > c.comparer
    else if c.operator == ">=" then value >= c.comparer
    else false
  }

  /** `conditions.some(...)`, walked front to back. */
  function Some(value: int, conditions: seq<Conditional>): (r: bool)
    ensures r <==> exists i :: 0 <= i < |conditions| && Holds(value, conditions[i])
  {
    if conditions == [] then false
    else Holds(value, conditions[0]) || Some(value, conditions[1..])
  }

  function CheckCondition(value: int, conditions: seq<Conditional>): (r: Verdict)
    ensures conditions == [] ==> r == Bare(value)
    ensures conditions != [] ==> r.Flag?
  {
    if conditions == [] then Bare(value) else Flag(Some(value, conditions))
  }

  /** `checkCondition` used as a JavaScript condition, as every caller does. */
  predicate Matches(value: int, conditions: seq<Conditional>) {
    Truthy(CheckCondition(value, conditions))
  }

  /** The list a modifier tests: the given conditions, or `= face` when the
      list is empty. `reroll` passes `faces.min`; `explode` and
      `explodeAndCombine` pass `faces.max`. The source pushes that default into
      the modifier's own list; the faces never change, so every later roll
      sees the same list. */
  function WithDefault(conds: seq<Conditional>, face: int): (c: seq<Conditional>)
    ensures c != []
    ensures conds != [] ==> c == conds
    ensures conds == [] ==> forall v :: Matches(v, c) <==> v == face
  {
    if conds == [] then [Conditional("=", face)] else conds
  }

  /** The only kind of verdict callers act on: truthiness. With a non-empty list
      it holds iff one (operator, comparer) pair holds; with an empty list iff
      the value is non-zero. */
  lemma CheckConditionTruthy(value: int, conditions: seq<Conditional>)
    ensures Matches(value, conditions) <==>
      if conditions == [] then value != 0
      else exists i :: 0 <= i < |conditions| && Holds(value, conditions[i])
  {
  }

  /** `=!` is read as `!=`, and every operator outside the switch, in
      particular the negate markers `-=` and `=-`, never holds. */
  lemma OperatorTable(value: int, comparer: int, op: string)
    ensures Holds(value, Conditional("=!", comparer)) == Holds(value, Conditional("!=", comparer))
    ensures op !in {"=", "!=", "=!", "<", "<=", ">", ">="} ==> !Holds(value, Conditional(op, comparer))
    ensures !Holds(value, Conditional("-=", comparer)) && !Holds(value, Conditional("=-", comparer))
  {
  }
}
