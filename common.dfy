/** Small helpers shared by the dice model: an Option type, the decimal text of
    integers (JavaScript's `${n}` and `Number(text)` on integers), the start
    index that `Array.prototype.slice(k)` uses, and `String.prototype.replace`
    with a string pattern (first occurrence only). */
module Common {

  datatype Option<T> = None | Some(value: T)

  // ---------------------------------------------------------------------------
  // Decimal text of integers
  // ---------------------------------------------------------------------------

  predicate IsDigit(c: char) {
    '0' <= c <= '9'
  }

  predicate AllDigits(s: string) {
    forall i :: 0 <= i < |s| ==> IsDigit(s[i])
  }

  /** Text matched by the regular expression `^-?\d+$`. */
  predicate IsIntegerText(s: string) {
    if |s| > 0 && s[0] == '-' then |s| > 1 && AllDigits(s[1..])
    else |s| > 0 && AllDigits(s)
  }

  function DigitChar(d: nat): (c: char)
    requires d < 10
    ensures IsDigit(c)
  {
    "0123456789"[d]
  }

  function DigitValue(c: char): nat
    requires IsDigit(c)
  {
    (c as int - '0' as int) as nat
  }

  /** Decimal digits of `n` without leading zeros. */
  function NatToString(n: nat): (s: string)
    ensures |s| > 0 && AllDigits(s)
    ensures |s| > 1 ==> s[0] != '0'
  {
    if n < 10 then [DigitChar(n)] else NatToString(n / 10) + [DigitChar(n % 10)]
  }

  /** `${n}` for an integer n. */
  function IntToString(n: int): (s: string)
    ensures IsIntegerText(s)
  {
    if n < 0 then "-" + NatToString(-n) else NatToString(n)
  }

  /** Value of a digit string read most significant digit first. */
  function DigitsValue(s: string): nat
    requires AllDigits(s)
  {
    if s == [] then 0 else DigitsValue(s[..|s| - 1]) * 10 + DigitValue(s[|s| - 1])
  }

  /** `Number(s)` for a text matching `^-?\d+$`. */
  function ParseInt(s: string): int
    requires IsIntegerText(s)
  {
    if s[0] == '-' then -(DigitsValue(s[1..]) as int) else DigitsValue(s)
  }

  lemma {:induction false} DigitsOfNat(n: nat)
    ensures DigitsValue(NatToString(n)) == n
  {
    if n >= 10 {
      var s := NatToString(n);
      DigitsOfNat(n / 10);
      assert s[..|s| - 1] == NatToString(n / 10);
    }
  }

  /** The static group that an operator pushes is built from `${result}` and
      read back with `Number(...)`: the value survives the trip. */
  lemma IntTextRoundTrip(n: int)
    ensures ParseInt(IntToString(n)) == n
  {
    DigitsOfNat(if n < 0 then -n else n);
    if n < 0 {
      assert IntToString(n)[1..] == NatToString(-n);
    }
  }

  // ---------------------------------------------------------------------------
  // Array.prototype.slice start index
  // ---------------------------------------------------------------------------

  /** The index at which `xs.slice(k)` starts on an array of length `len`:
      a negative `k` counts from the end, and both ends are clamped. */
  function SliceStart(k: int, len: nat): (start: nat)
    ensures start <= len
    ensures 0 <= k <= len ==> start == k
    ensures -(len as int) <= k < 0 ==> start == len + k
    ensures k > len ==> start == len
    ensures k < -(len as int) ==> start == 0
  {
    if k < 0 then (if len + k < 0 then 0 else len + k) else if k > len then len else k
  }

  // ---------------------------------------------------------------------------
  // String.prototype.replace with a string pattern
  // ---------------------------------------------------------------------------

  predicate OccursAt(s: string, pat: string, i: nat) {
    i + |pat| <= |s| && s[i..i + |pat|] == pat
  }

  /** Leftmost position at or after `from` where `pat` occurs, if any. */
  function FindFrom(s: string, pat: string, from: nat): (r: Option<nat>)
    decreases |s| - from
    ensures r.Some? ==> from <= r.value && OccursAt(s, pat, r.value)
    ensures r.Some? ==> forall j :: from <= j < r.value ==> !OccursAt(s, pat, j)
    ensures r.None? ==> forall j :: from <= j ==> !OccursAt(s, pat, j)
  {
    if from + |pat| > |s| then None
    else if s[from..from + |pat|] == pat then Some(from)
    else FindFrom(s, pat, from + 1)
  }

  /** `s.replace(pat, rep)`: the first occurrence of `pat` is replaced by `rep`;
      without an occurrence `s` is returned unchanged. */
  function ReplaceFirst(s: string, pat: string, rep: string): string {
    match FindFrom(s, pat, 0)
    case None => s
    case Some(i) => s[..i] + rep + s[i + |pat|..]
  }

  lemma ReplaceFirstSpec(s: string, pat: string, rep: string)
    ensures (forall j :: !OccursAt(s, pat, j)) ==> ReplaceFirst(s, pat, rep) == s
    ensures forall i: nat :: OccursAt(s, pat, i) && (forall j: nat :: j < i ==> !OccursAt(s, pat, j)) ==>
              ReplaceFirst(s, pat, rep) == s[..i] + rep + s[i + |pat|..]
  {
    var r := FindFrom(s, pat, 0);
    forall i: nat | OccursAt(s, pat, i) && (forall j: nat :: j < i ==> !OccursAt(s, pat, j))
      ensures ReplaceFirst(s, pat, rep) == s[..i] + rep + s[i + |pat|..]
    {
      assert r.Some?;
      assert r.value == i;
    }
  }
}
