/** The string operations the app relies on: toLowerCase (ASCII letters only),
    String.prototype.includes and String.prototype.startsWith. */
module Text {

  /** ASCII case folding of one character; everything but 'A'..'Z' is left alone. */
  function LowerChar(c: char): (d: char)
    ensures 'A' <= c <= 'Z' ==> 'a' <= d <= 'z' && d as int == c as int + 32
    ensures !('A' <= c <= 'Z') ==> d == c
  {
    if 'A' <= c <= 'Z' then (c as int + 32) as char else c
  }

  /** toLowerCase, restricted to ASCII folding. */
  function ToLower(s: string): (r: string)
    ensures |r| == |s|
    ensures forall i :: 0 <= i < |s| ==> r[i] == LowerChar(s[i])
  {
    if s == [] then [] else [LowerChar(s[0])] + ToLower(s[1..])
  }

  /** startsWith: p is a prefix of s. */
  predicate StartsWith(s: string, p: string)
  {
    |p| <= |s| && s[..|p|] == p
  }

  /** includes: t occurs in s at some position, found by scanning s from the left. */
  predicate Includes(s: string, t: string)
    decreases |s|
  {
    StartsWith(s, t) || (s != [] && Includes(s[1..], t))
  }

  /** Reference definition of "t is a substring of s". */
  ghost predicate OccursAt(s: string, t: string, i: int)
  {
    0 <= i && i + |t| <= |s| && s[i..i + |t|] == t
  }

  /** t is a substring of s. */
  ghost predicate Occurs(s: string, t: string)
  {
    exists i :: OccursAt(s, t, i)
  }

  /** The scanning includes finds exactly the occurrences of the reference definition. */
  lemma {:induction false} IncludesIff(s: string, t: string)
    ensures Includes(s, t) <==> exists i :: OccursAt(s, t, i)
  {
    if Includes(s, t) {
      if StartsWith(s, t) {
        assert OccursAt(s, t, 0);
      } else {
        IncludesIff(s[1..], t);
        var i :| OccursAt(s[1..], t, i);
        assert s[1..][i..i + |t|] == s[i + 1..i + 1 + |t|];
        assert OccursAt(s, t, i + 1);
      }
    }
    if exists i :: OccursAt(s, t, i) {
      var i :| OccursAt(s, t, i);
      if i == 0 {
        assert StartsWith(s, t);
      } else {
        assert s[1..][i - 1..i - 1 + |t|] == s[i..i + |t|];
        assert OccursAt(s[1..], t, i - 1);
        IncludesIff(s[1..], t);
      }
    }
  }

  /** The empty string is found in every string, so an empty search term matches everything. */
  lemma EmptyIncluded(s: string)
    ensures Includes(s, "")
  {
    assert StartsWith(s, "");
  }

  /** A string without upper-case ASCII letters is its own lower case. */
  lemma LowerFixed(s: string)
    requires forall i :: 0 <= i < |s| ==> !('A' <= s[i] <= 'Z')
    ensures ToLower(s) == s
  {
  }
}
