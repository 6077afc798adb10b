/**
 * The rule the voice result handler applies to a recognised phrase
 * (src/App.js lines 58-65): the transcript is lower-cased; a transcript that
 * contains "make" records a make, otherwise one that contains "miss" records a
 * miss, and any other transcript records nothing.
 */
module Transcript {
  import opened Wrappers

  /**
   * Lower-casing of one character (ASCII letters only): the result is never an
   * upper-case letter, an upper-case letter becomes a lower-case one, and only
   * upper-case letters are changed.
   */
  function LowerChar(c: char): (d: char)
    ensures !('A' <= d <= 'Z')
    ensures 'A' <= c <= 'Z' ==> 'a' <= d <= 'z'
    ensures d != c ==> 'A' <= c <= 'Z'
  {
    if 'A' <= c <= 'Z' then (c as int + 32) as char else c
  }

  /** `toLowerCase()`: the same length, each character lower-cased in place. */
  function ToLower(s: string): (r: string)
    ensures |r| == |s|
    ensures forall i :: 0 <= i < |s| ==> r[i] == LowerChar(s[i])
  {
    if s == [] then [] else [LowerChar(s[0])] + ToLower(s[1..])
  }

  /** Lower-casing twice is lower-casing once. */
  lemma ToLowerIdempotent(s: string)
    ensures ToLower(ToLower(s)) == ToLower(s)
  {
    assert forall i :: 0 <= i < |s| ==> ToLower(ToLower(s))[i] == ToLower(s)[i];
  }

  /** `p` occurs in `s` starting at index `i`. */
  predicate OccursAt(s: string, p: string, i: nat) {
    i + |p| <= |s| && s[i..i + |p|] == p
  }

  /** `p` occurs somewhere in `s`. */
  ghost predicate Contains(s: string, p: string) {
    exists i: nat :: OccursAt(s, p, i)
  }

  lemma IncludesStep(s: string, p: string)
    requires |p| <= |s| && s[..|p|] != p
    ensures Contains(s, p) <==> Contains(s[1..], p)
  {
    if Contains(s, p) {
      var i: nat :| OccursAt(s, p, i);
      assert i != 0;
      assert s[1..][i - 1..i - 1 + |p|] == s[i..i + |p|];
      assert OccursAt(s[1..], p, i - 1);
    }
    if Contains(s[1..], p) {
      var j: nat :| OccursAt(s[1..], p, j);
      assert s[1..][j..j + |p|] == s[j + 1..j + 1 + |p|];
      assert OccursAt(s, p, j + 1);
    }
  }

  /** `s.includes(p)`: true exactly when `p` occurs in `s`. */
  function Includes(s: string, p: string): (r: bool)
    ensures r <==> Contains(s, p)
    decreases |s|
  {
    if |s| < |p| then false
    else if s[..|p|] == p then assert OccursAt(s, p, 0); true
    else IncludesStep(s, p); Includes(s[1..], p)
  }

  /** The lower-cased transcript contains `word`. */
  ghost predicate Mentions(transcript: string, word: string) {
    Contains(ToLower(transcript), word)
  }

  /**
   * The outcome a transcript resolves: `Some(true)` for a make and `Some(false)`
   * for a miss; `None` when the handler records nothing. "make" wins over "miss".
   */
  function Classify(transcript: string): (r: Option<bool>)
    ensures r == Some(true) <==> Mentions(transcript, "make")
    ensures r == Some(false) <==> !Mentions(transcript, "make") && Mentions(transcript, "miss")
    ensures r == None <==> !Mentions(transcript, "make") && !Mentions(transcript, "miss")
  {
    var lower := ToLower(transcript);
    if Includes(lower, "make") then Some(true)
    else if Includes(lower, "miss") then Some(false)
    else None
  }

  /** Lower-casing commutes with taking a slice. */
  lemma ToLowerSlice(s: string, i: nat, j: nat)
    requires i <= j <= |s|
    ensures ToLower(s)[i..j] == ToLower(s[i..j])
  {
    assert forall k :: 0 <= k < j - i ==> ToLower(s)[i..j][k] == ToLower(s[i..j])[k];
  }

  /** A word in any letter case counts once lower-cased: "MAKE" and "Make" are makes. */
  lemma MentionsAnyCase(transcript: string, word: string, i: nat)
    requires OccursAt(transcript, word, i)
    ensures Mentions(transcript, ToLower(word))
  {
    ToLowerSlice(transcript, i, i + |word|);
    assert OccursAt(ToLower(transcript), ToLower(word), i);
  }

  /** The spoken word "Miss" alone records a miss. */
  lemma ClassifyMissWord()
    ensures Classify("Miss") == Some(false)
  {
    assert ToLower("Miss") == "miss";
    assert OccursAt(ToLower("Miss"), "miss", 0);
    assert !OccursAt(ToLower("Miss"), "make", 0);
  }

  /** The rule only looks at the lower-cased transcript. */
  lemma ClassifyIgnoresCase(transcript: string)
    ensures Classify(ToLower(transcript)) == Classify(transcript)
  {
    ToLowerIdempotent(transcript);
  }
}
