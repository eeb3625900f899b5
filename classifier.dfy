/**
 * What one frame of the classifier produces, the confidence cutoff, and the
 * selection of the top prediction (script.js, `predict`).
 */
module Classifier {
  import opened Wrappers

  /** One entry of the list returned by the image model. Probabilities are
      only ever compared, so a real number stands for the JavaScript number. */
  datatype Prediction = Prediction(className: string, probability: real)

  /** `CONFIDENCE_THRESHOLD`: a prediction is acted on only strictly above it. */
  const ConfidenceThreshold: real := 0.6

  /** The strict comparison the source uses both for sending and for highlighting. */
  predicate AboveThreshold(p: real) {
    p > ConfidenceThreshold
  }

  /** `k` is the first index holding the largest probability of `ps`. */
  predicate IsFirstMax(ps: seq<Prediction>, k: nat) {
    k < |ps| &&
    (forall j :: 0 <= j < |ps| ==> ps[j].probability <= ps[k].probability) &&
    (forall j :: 0 <= j < k ==> ps[j].probability < ps[k].probability)
  }

  /** The index the source's scan ends on: a later entry replaces the current
      one only when it is strictly larger, so the earliest maximum wins. */
  function TopIndex(ps: seq<Prediction>): (k: nat)
    requires |ps| > 0
    ensures IsFirstMax(ps, k)
    decreases |ps|
  {
    if |ps| == 1 then 0
    else
      var k := TopIndex(ps[..|ps| - 1]);
      if ps[|ps| - 1].probability > ps[k].probability then |ps| - 1 else k
  }

  /** There is only one first maximum, so `TopIndex` is the only index with that property. */
  lemma FirstMaxIsUnique(ps: seq<Prediction>, k: nat)
    requires |ps| > 0
    ensures IsFirstMax(ps, k) <==> k == TopIndex(ps)
  {
  }

  /**
   * The selection loop of `predict`: start from `predictions[0]` and keep a
   * later entry only when its probability is strictly larger. On an empty
   * list `predictions[0]` is `undefined`; that is `None` here.
   */
  method SelectTop(ps: seq<Prediction>) returns (top: Option<Prediction>)
    ensures top.None? <==> ps == []
    ensures ps != [] ==> top == Some(ps[TopIndex(ps)])
    ensures top.Some? ==> forall j :: 0 <= j < |ps| ==> ps[j].probability <= top.value.probability
  {
    top := None;
    if |ps| > 0 {
      var best := ps[0];
      var k := 0;
      var i := 1;
      while i < |ps|
        invariant 1 <= i <= |ps|
        invariant k == TopIndex(ps[..i]) && best == ps[k]
      {
        assert ps[..i + 1][..i] == ps[..i];
        if ps[i].probability > best.probability {
          best := ps[i];
          k := i;
        }
        i := i + 1;
      }
      assert ps[..i] == ps;
      top := Some(best);
    }
  }

  /** On a tie the earlier entry is the one selected. */
  lemma EarliestMaximumWins(ps: seq<Prediction>, i: nat, j: nat)
    requires i < j < |ps|
    requires ps[i].probability == ps[j].probability
    ensures TopIndex(ps) != j
  {
  }

  /** No entry strictly above the cutoff means the selected one is not above it either. */
  lemma TopAboveThresholdIff(ps: seq<Prediction>)
    requires |ps| > 0
    ensures AboveThreshold(ps[TopIndex(ps)].probability) <==>
            exists j :: 0 <= j < |ps| && AboveThreshold(ps[j].probability)
  {
  }
}
