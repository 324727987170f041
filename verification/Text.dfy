/** Case folding, over the letters of ASCII. */
module Text {
  function LowerChar(c: char): char {
    if 'A' <= c <= 'Z' then c - 'A' + 'a' else c
  }

  function Lower(s: string): string {
    if s == "" then "" else [LowerChar(s[0])] + Lower(s[1..])
  }

  /** `iexact`: equal up to case. */
  predicate SameName(a: string, b: string) {
    Lower(a) == Lower(b)
  }

  /** Letter by letter: a capital becomes the small letter as far from 'a' as it is from 'A', and
      everything else stays. */
  lemma {:induction false} LowerIs(s: string)
    ensures |Lower(s)| == |s|
    ensures forall i :: 0 <= i < |s| ==>
              if 'A' <= s[i] <= 'Z' then Lower(s)[i] as int - 'a' as int == s[i] as int - 'A' as int
              else Lower(s)[i] == s[i]
  {
    if s != "" {
      LowerIs(s[1..]);
    }
  }
}
