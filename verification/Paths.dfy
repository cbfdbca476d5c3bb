/** Slash-separated resource IDs, as far as the database and the validator look into them. */
module Paths {

  function LowerChar(c: char): char {
    if 'A' <= c <= 'Z' then c - 'A' + 'a' else c
  }

  function ToLower(s: string): (t: string)
    ensures |t| == |s|
    ensures forall i :: 0 <= i < |s| ==> t[i] == LowerChar(s[i])
  {
    if s == "" then "" else [LowerChar(s[0])] + ToLower(s[1..])
  }

  predicate IsLower(s: string) {
    s == ToLower(s)
  }

  /** A lower-case string has no capital letter. */
  lemma LowerMeansNoCapitals(s: string)
    ensures IsLower(s) <==> forall i :: 0 <= i < |s| ==> !('A' <= s[i] <= 'Z')
  {
    if forall i :: 0 <= i < |s| ==> !('A' <= s[i] <= 'Z') {
      assert s == ToLower(s);
    }
    if IsLower(s) {
      forall i | 0 <= i < |s| ensures !('A' <= s[i] <= 'Z') {
        assert s[i] == LowerChar(s[i]);
      }
    }
  }

  predicate IsCapitalOf(c: char, d: char) {
    'A' <= c <= 'Z' && d == c - 'A' + 'a'
  }

  /** Two letters are the same up to case. */
  predicate SameLetter(c: char, d: char) {
    c == d || IsCapitalOf(c, d) || IsCapitalOf(d, c)
  }

  lemma SameLetterLower(c: char, d: char)
    ensures LowerChar(c) == LowerChar(d) <==> SameLetter(c, d)
  {}

  /** Lower-casing makes exactly those strings equal that differ in case only. */
  lemma LowerIdentifiesCase(s: string, t: string)
    ensures ToLower(s) == ToLower(t) <==> |s| == |t| && forall i :: 0 <= i < |s| ==> SameLetter(s[i], t[i])
  {
    hide LowerChar, SameLetter;
    if ToLower(s) == ToLower(t) {
      forall i | 0 <= i < |s| ensures SameLetter(s[i], t[i]) {
        assert ToLower(s)[i] == ToLower(t)[i];
        SameLetterLower(s[i], t[i]);
      }
    }
    if |s| == |t| && forall i :: 0 <= i < |s| ==> SameLetter(s[i], t[i]) {
      forall i | 0 <= i < |s| ensures ToLower(s)[i] == ToLower(t)[i] {
        SameLetterLower(s[i], t[i]);
      }
      assert ToLower(s) == ToLower(t);
    }
  }

  /** The part of `s` before its first slash. */
  function Head(s: string): string {
    if s == "" || s[0] == '/' then "" else [s[0]] + Head(s[1..])
  }

  /** The part of `s` after its first slash, "" when it has none. */
  function Rest(s: string): (r: string)
    ensures s == "" ==> r == ""
    ensures s != "" ==> |r| < |s|
  {
    if s == "" then "" else if s[0] == '/' then s[1..] else Rest(s[1..])
  }

  /** Element `n` of strings.Split(s, "/"), "" when there are fewer. */
  function Segment(s: string, n: nat): string
    decreases n
  {
    if n == 0 then Head(s) else Segment(Rest(s), n - 1)
  }

  /** The subscription of a resource ID "/subscriptions/<id>/...". */
  function Subscription(id: string): string {
    Segment(id, 2)
  }

  lemma {:induction false} HeadToLower(s: string)
    ensures Head(ToLower(s)) == ToLower(Head(s))
    ensures Rest(ToLower(s)) == ToLower(Rest(s))
  {
    if s != "" {
      HeadToLower(s[1..]);
      assert ToLower(s)[1..] == ToLower(s[1..]);
    }
  }

  lemma {:induction false} SegmentToLower(s: string, n: nat)
    ensures Segment(ToLower(s), n) == ToLower(Segment(s, n))
    decreases n
  {
    HeadToLower(s);
    if n > 0 {
      SegmentToLower(Rest(s), n - 1);
    }
  }
}
