/**
 * The fixed drill vocabularies of the trainer and the uniform pick from them
 * (src/App.js lines 11-21 and 112). A drill prompt is a spot, a start type and a
 * finishing action, each a label from its own list.
 */
module Vocabulary {

  const Spots: seq<string> := ["Left Corner", "Left Wing", "Top of Key", "Right Wing", "Right Corner"]

  const StartTypes: seq<string> := ["Stationary", "Dribbling"]

  const Actions: seq<string> := [
    "Finish at the Hoop Left",
    "Finish at the Hoop Right",
    "Finish Pull-Up Left",
    "Finish Pull-Up Right",
    "Shoot",
    "Stepback Left",
    "Stepback Right"
  ]

  /** A drill prompt as announced: spot, then start type, then action. */
  datatype Prompt = Prompt(spot: string, startType: string, action: string)

  /** Every field of the prompt is an entry of its vocabulary. */
  predicate InVocabulary(p: Prompt) {
    p.spot in Spots && p.startType in StartTypes && p.action in Actions
  }

  /**
   * `Math.floor(u * n)` for a draw `u` of `Math.random()`, which lies in [0, 1):
   * always an index of an array of length `n`.
   */
  function PickIndex(n: nat, u: real): (k: nat)
    requires 0 < n
    requires 0.0 <= u < 1.0
    ensures k < n
  {
    var x := u * n as real;
    assert 0.0 <= x < n as real by {
      assert u * n as real < 1.0 * n as real;
    }
    x.Floor
  }

  /** Every index is the pick of some draw: no entry of a vocabulary is excluded. */
  lemma EveryIndexReachable(n: nat, k: nat)
    requires k < n
    ensures 0.0 <= k as real / n as real < 1.0
    ensures PickIndex(n, k as real / n as real) == k
  {
    var u := k as real / n as real;
    assert u * n as real == k as real;
  }

  /** `pickRandom(arr)`: the entry of `arr` at the picked index. */
  function PickRandom(arr: seq<string>, u: real): (x: string)
    requires 0 < |arr|
    requires 0.0 <= u < 1.0
    ensures x in arr
    ensures x == arr[PickIndex(|arr|, u)]
  {
    arr[PickIndex(|arr|, u)]
  }

  /** The three independent picks of `startRound`, one draw per vocabulary. */
  function GeneratePrompt(uSpot: real, uStart: real, uAction: real): (p: Prompt)
    requires 0.0 <= uSpot < 1.0 && 0.0 <= uStart < 1.0 && 0.0 <= uAction < 1.0
    ensures InVocabulary(p)
  {
    Prompt(PickRandom(Spots, uSpot), PickRandom(StartTypes, uStart), PickRandom(Actions, uAction))
  }

  /** Every prompt of the vocabularies is generated by some three draws. */
  lemma EveryPromptReachable(p: Prompt)
    requires InVocabulary(p)
    ensures exists uSpot: real, uStart: real, uAction: real
              {:trigger GeneratePrompt(uSpot, uStart, uAction)} ::
              0.0 <= uSpot < 1.0 && 0.0 <= uStart < 1.0 && 0.0 <= uAction < 1.0 &&
              GeneratePrompt(uSpot, uStart, uAction) == p
  {
    var i :| 0 <= i < |Spots| && Spots[i] == p.spot;
    var j :| 0 <= j < |StartTypes| && StartTypes[j] == p.startType;
    var k :| 0 <= k < |Actions| && Actions[k] == p.action;
    EveryIndexReachable(|Spots|, i);
    EveryIndexReachable(|StartTypes|, j);
    EveryIndexReachable(|Actions|, k);
    assert GeneratePrompt(i as real / |Spots| as real, j as real / |StartTypes| as real,
                          k as real / |Actions| as real) == p;
  }
}
