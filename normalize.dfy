/** Case normalisation of the `key` and `value` fields: `str.lower` on strings
    (ASCII letters only) and `None` for everything else. */
module Normalize {
  import opened Json

  predicate IsUpper(c: char)
  {
    'A' <= c <= 'Z'
  }

  /** The lowercase form of one character: A-Z move to a-z, the rest stay. */
  function LowerChar(c: char): (r: char)
    ensures !IsUpper(r)
    ensures IsUpper(c) ==> r as int == c as int + 32
    ensures !IsUpper(c) ==> r == c
  {
    if IsUpper(c) then (c as int + 32) as char else c
  }

  /** A string with no uppercase ASCII letter. */
  predicate IsLower(s: string)
  {
    forall i :: 0 <= i < |s| ==> !IsUpper(s[i])
  }

  /** `str.lower`: same length, no uppercase letter left, every uppercase
      letter replaced by its lowercase partner and every other character kept. */
  function Lower(s: string): (r: string)
    ensures |r| == |s|
    ensures IsLower(r)
    ensures forall i :: 0 <= i < |s| && IsUpper(s[i]) ==> r[i] as int == s[i] as int + 32
    ensures forall i :: 0 <= i < |s| && !IsUpper(s[i]) ==> r[i] == s[i]
  {
    seq(|s|, i requires 0 <= i < |s| => LowerChar(s[i]))
  }

  /** A string is left unchanged by lowering exactly when it is already
      lowercase. */
  lemma LowerFixesExactlyLower(s: string)
    ensures Lower(s) == s <==> IsLower(s)
  {
  }

  /** Lowering twice is lowering once. */
  lemma LowerIdempotent(s: string)
    ensures Lower(Lower(s)) == Lower(s)
  {
  }

  /** The normal form of a `key` or `value` field: `None` or a lowercase string. */
  predicate IsNormalized(v: Value)
  {
    v.Null? || (v.Str? && IsLower(v.s))
  }

  /** `_lower_or_none`: a string becomes its own lowercase form, any other value
      (absent, `None`, a number, a boolean, a list, a dictionary) becomes `None`. */
  function LowerOrNone(v: Value): (r: Value)
    ensures IsNormalized(r)
    ensures r.Str? <==> v.Str?
    ensures v.Str? ==> r.s == Lower(v.s)
  {
    if v.Str? then Str(Lower(v.s)) else Null
  }

  /** A normalised field is a fixed point of `_lower_or_none`. */
  lemma LowerOrNoneFixesNormalized(v: Value)
    ensures LowerOrNone(v) == v <==> IsNormalized(v)
  {
  }

  /** Applying `_lower_or_none` twice gives the same result as applying it once. */
  lemma LowerOrNoneIdempotent(v: Value)
    ensures LowerOrNone(LowerOrNone(v)) == LowerOrNone(v)
  {
  }
}
