/**
 * `String.prototype.toLowerCase` on the characters a keyboard event's `key`
 * can name here: ASCII capitals become small letters, everything else is
 * kept.
 */
module JsStrings {
  predicate IsUpper(c: char)
  {
    'A' <= c <= 'Z'
  }

  function LowerChar(c: char): (d: char)
    ensures IsUpper(c) ==> d as int == c as int + 32
    ensures !IsUpper(c) ==> d == c
    ensures !IsUpper(d)
  {
    if IsUpper(c) then (c as int + 32) as char else c
  }

  function ToLower(s: string): (t: string)
    ensures |t| == |s|
    ensures forall i | 0 <= i < |s| :: t[i] == LowerChar(s[i])
  {
    if |s| == 0 then [] else [LowerChar(s[0])] + ToLower(s[1..])
  }

  /** Lowering twice is lowering once. */
  lemma ToLowerIdempotent(s: string)
    ensures ToLower(ToLower(s)) == ToLower(s)
  {
  }

  /** A string without capitals is its own lowercase. */
  lemma ToLowerOfLower(s: string)
    requires forall i | 0 <= i < |s| :: !IsUpper(s[i])
    ensures ToLower(s) == s
  {
  }
}
