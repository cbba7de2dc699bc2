/** Lower-casing of strings, restricted to the ASCII letters. */
module Ascii {

  /** The lower-case form of one character: 'A'..'Z' move to 'a'..'z'. */
  function LowerChar(c: char): (l: char)
    ensures 'A' <= c <= 'Z' ==> 'a' <= l <= 'z' && l as int - c as int == 32
    ensures !('A' <= c <= 'Z') ==> l == c
  {
    if 'A' <= c <= 'Z' then (c as int + 32) as char else c
  }

  /** `str::to_lowercase`: every character replaced by its lower-case form. */
  function ToLowercase(s: string): (r: string)
    ensures |r| == |s|
    ensures forall i :: 0 <= i < |s| ==> r[i] == LowerChar(s[i])
  {
    if s == [] then [] else [LowerChar(s[0])] + ToLowercase(s[1..])
  }

  /** A character lower-cases to a given lower-case letter exactly when it is
      that letter or its upper-case form. */
  lemma LowerCharIs(c: char, l: char)
    requires 'a' <= l <= 'z'
    ensures LowerChar(c) == l <==> c == l || c as int == l as int - 32
  {
  }

  /** A string lower-cases to "none" exactly when it is "none" spelt in any mix
      of upper and lower case. */
  lemma NoneSpellings(s: string)
    ensures ToLowercase(s) == "none" <==>
      && |s| == 4
      && (s[0] == 'n' || s[0] == 'N')
      && (s[1] == 'o' || s[1] == 'O')
      && (s[2] == 'n' || s[2] == 'N')
      && (s[3] == 'e' || s[3] == 'E')
  {
    var r := ToLowercase(s);
    if |s| == 4 {
      LowerCharIs(s[0], 'n');
      LowerCharIs(s[1], 'o');
      LowerCharIs(s[2], 'n');
      LowerCharIs(s[3], 'e');
      assert r == [r[0], r[1], r[2], r[3]];
      assert r == "none" <==> r[0] == 'n' && r[1] == 'o' && r[2] == 'n' && r[3] == 'e';
    }
  }
}
