/** Case-insensitive comparison of member names, restricted to ASCII letters. */
module Names {

  /** Lower-cases one ASCII capital letter; every other character is kept. */
  function Lower(c: char): char
  {
    if 'A' <= c <= 'Z' then (c as int + 32) as char else c
  }

  /** `s.toLowerCase()` over ASCII. */
  function LowerCase(s: string): (r: string)
    ensures |r| == |s|
    ensures forall i :: 0 <= i < |s| ==> r[i] == Lower(s[i])
  {
    seq(|s|, i requires 0 <= i < |s| => Lower(s[i]))
  }

  /** Two names the client treats as the same name: exactly the names that
      differ from each other only in the case of ASCII letters. */
  function SameName(a: string, b: string): (r: bool)
    ensures r <==> |a| == |b| && forall i :: 0 <= i < |a| ==> SameLetter(a[i], b[i])
  {
    LowerCaseEqualIffCaseVariant(a, b);
    LowerCase(a) == LowerCase(b)
  }

  /** Two characters are equal or are the capital and small form of one ASCII letter. */
  predicate SameLetter(x: char, y: char)
  {
    || x == y
    || ('A' <= x <= 'Z' && y as int == x as int + 32)
    || ('A' <= y <= 'Z' && x as int == y as int + 32)
  }

  /** Lower-casing two characters makes them equal exactly when they differ at most in case. */
  lemma LowerEqualIffSameLetter(x: char, y: char)
    ensures Lower(x) == Lower(y) <==> SameLetter(x, y)
  {
  }

  /** Lower-casing two strings makes them equal exactly when they differ at
      most in the case of ASCII letters, position by position. */
  lemma LowerCaseEqualIffCaseVariant(a: string, b: string)
    ensures LowerCase(a) == LowerCase(b) <==> |a| == |b| && forall i :: 0 <= i < |a| ==> SameLetter(a[i], b[i])
  {
    if LowerCase(a) == LowerCase(b) {
      forall i | 0 <= i < |a|
        ensures SameLetter(a[i], b[i])
      {
        assert LowerCase(a)[i] == LowerCase(b)[i];
        LowerEqualIffSameLetter(a[i], b[i]);
      }
    }
    if |a| == |b| && forall i :: 0 <= i < |a| ==> SameLetter(a[i], b[i]) {
      forall i | 0 <= i < |a|
        ensures LowerCase(a)[i] == LowerCase(b)[i]
      {
        LowerEqualIffSameLetter(a[i], b[i]);
      }
    }
  }

  /** Only the empty name compares equal to the empty name. */
  lemma SameNameAsEmpty(a: string)
    ensures SameName(a, "") <==> a == ""
  {
  }
}
