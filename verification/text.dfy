/** Python's `str.lower()`, restricted to the ASCII letters. */
module Text {

  predicate IsUpperChar(c: char)
  {
    'A' <= c <= 'Z'
  }

  function LowerChar(c: char): char
  {
    if IsUpperChar(c) then (c as int + 32) as char else c
  }

  /** The lower-cased copy of `s`: same length, every ASCII capital replaced by its small letter. */
  function Lower(s: string): (r: string)
    ensures |r| == |s|
    ensures forall i :: 0 <= i < |s| ==> !IsUpperChar(r[i])
    ensures forall i :: 0 <= i < |s| && !IsUpperChar(s[i]) ==> r[i] == s[i]
  {
    seq(|s|, i requires 0 <= i < |s| => LowerChar(s[i]))
  }

  /** Python's `[item.lower() for item in items]`. */
  function LowerAll(items: seq<string>): (r: seq<string>)
    ensures |r| == |items|
    ensures forall i :: 0 <= i < |items| ==> r[i] == Lower(items[i])
  {
    seq(|items|, i requires 0 <= i < |items| => Lower(items[i]))
  }

  /** `part` appears in `whole` starting at index `i`. */
  predicate OccursAt(part: string, whole: string, i: int)
  {
    0 <= i && i + |part| <= |whole| && whole[i..i + |part|] == part
  }

  /** Python's `part in whole` on two strings. */
  predicate IsSubstring(part: string, whole: string)
  {
    exists i :: 0 <= i <= |whole| && OccursAt(part, whole, i)
  }
}
