/** Turning the model's score vector into a labelled, prioritised result. */
module Interpretation {
  import opened Outcomes
  import opened Config

  /** `k` is where `np.argmax` points: a maximal entry with every earlier
      entry strictly smaller. */
  ghost predicate IsFirstMax(s: seq<real>, k: int)
  {
    && 0 <= k < |s|
    && (forall j :: 0 <= j < |s| ==> s[j] <= s[k])
    && (forall j :: 0 <= j < k ==> s[j] < s[k])
  }

  /** `np.argmax` on a non-empty vector: a left-to-right scan that moves only
      on a strictly larger entry. */
  function Argmax(s: seq<real>): (k: nat)
    requires |s| > 0
    ensures IsFirstMax(s, k)
  {
    if |s| == 1 then 0
    else
      var k := Argmax(s[..|s| - 1]);
      if s[k] < s[|s| - 1] then |s| - 1 else k
  }

  /** The first-maximum description fixes the index. */
  lemma FirstMaxUnique(s: seq<real>, k1: int, k2: int)
    requires IsFirstMax(s, k1) && IsFirstMax(s, k2)
    ensures k1 == k2
  {
    assert s[k1] == s[k2] by {
      assert s[k2] <= s[k1] && s[k1] <= s[k2];
    }
  }

  /** `str(e)` of the exceptions the interpretation code can raise. */
  const EmptyArgmaxMessage: string := "attempt to get argmax of an empty sequence"
  const ListIndexMessage: string := "list index out of range"

  function IndexOutOfBoundsMessage(index: nat, size: nat): string
  {
    "index " + NatText(index) + " is out of bounds for axis 0 with size " + NatText(size)
  }

  /** The part the single and the batch endpoint share: argmax, confidence,
      label and the two table lookups. */
  datatype Classification =
    Classification(index: nat, className: string, confidence: real, priority: string, description: string)

  function Classify(p: seq<real>): (r: Outcome<Classification>)
    ensures |p| == 0 ==> r == Raised(EmptyArgmaxMessage)
    ensures r.Done? ==>
      && IsFirstMax(p, r.value.index)
      && r.value.index < |ClassNames|
      && r.value.className == ClassNames[r.value.index]
      && r.value.confidence == p[r.value.index] * 100.0
      && r.value.priority == ClassPriority[r.value.className]
      && r.value.description == ClassDescriptions[r.value.className]
      && r.value.priority in PriorityLevels
    ensures r.Raised? && |p| > 0 ==> r == Raised(ListIndexMessage) && Argmax(p) >= |ClassNames|
  {
    if |p| == 0 then Raised(EmptyArgmaxMessage)
    else
      var k := Argmax(p);
      var confidence := p[k] * 100.0;
      if k >= |ClassNames| then Raised(ListIndexMessage)
      else
        var name := ClassNames[k];
        TablesCoverClassNames();
        PrioritiesAreLevels();
        Done(Classification(k, name, confidence,
                            GetOr(ClassPriority, name, "LOW"),
                            GetOr(ClassDescriptions, name, "Unknown")))
  }

  /** Classification succeeds exactly when the first maximum lies among the
      labelled positions. */
  lemma ClassifySucceedsIff(p: seq<real>)
    ensures Classify(p).Done? <==> exists k :: 0 <= k < |ClassNames| && IsFirstMax(p, k)
  {
  }

  /** With one score per label the result is always one of the labels. */
  lemma ClassifySixScores(p: seq<real>)
    requires |p| == |ClassNames|
    ensures Classify(p).Done? && Classify(p).value.className in ClassNames
  {
  }

  /** The `all_predictions` dict comprehension over the first `n` labels;
      a later key would overwrite an earlier one, as in Python. Every key is a
      label, and each of the first `n` labels is a key. */
  function AllPredictions(p: seq<real>, n: nat): (m: map<string, real>)
    requires n <= |ClassNames| && n <= |p|
    ensures m.Keys <= LabelSet()
    ensures forall i :: 0 <= i < n ==> ClassNames[i] in m
  {
    if n == 0 then map[] else AllPredictions(p, n - 1)[ClassNames[n - 1] := p[n - 1] * 100.0]
  }

  lemma {:induction false} AllPredictionsSpec(p: seq<real>, n: nat)
    requires n <= |ClassNames| && n <= |p|
    ensures AllPredictions(p, n).Keys == set i | 0 <= i < n :: ClassNames[i]
    ensures forall i :: 0 <= i < n ==> AllPredictions(p, n)[ClassNames[i]] == p[i] * 100.0
  {
    if n > 0 {
      AllPredictionsSpec(p, n - 1);
      ClassNamesDistinct();
      var m := AllPredictions(p, n - 1);
      var m' := AllPredictions(p, n);
      var last := ClassNames[n - 1];
      assert m' == m[last := p[n - 1] * 100.0];
      assert m'.Keys == m.Keys + {last};
      assert (set i | 0 <= i < n :: ClassNames[i]) == (set i | 0 <= i < n - 1 :: ClassNames[i]) + {last};
      forall i | 0 <= i < n
        ensures m'[ClassNames[i]] == p[i] * 100.0
      {
        if i < n - 1 {
          assert ClassNames[i] != last;
          assert m'[ClassNames[i]] == m[ClassNames[i]];
        }
      }
    }
  }

  /** The body of a successful `/predict` reply, before rounding. */
  datatype Prediction =
    Prediction(className: string, confidence: real, priority: string, description: string,
               allPredictions: map<string, real>)

  /** What `/predict` does with `predictions[0]`: classify, then read one
      score per label (which raises on a vector shorter than the label list). */
  function Interpret(p: seq<real>): (r: Outcome<Prediction>)
    ensures r.Done? <==> |ClassNames| <= |p| && exists k :: 0 <= k < |ClassNames| && IsFirstMax(p, k)
    ensures r.Done? ==>
      && Argmax(p) < |ClassNames|
      && r.value.className == ClassNames[Argmax(p)]
      && r.value.confidence == p[Argmax(p)] * 100.0
      && r.value.priority == ClassPriority[r.value.className]
      && r.value.description == ClassDescriptions[r.value.className]
      && r.value.allPredictions.Keys == LabelSet()
      && forall i :: 0 <= i < |ClassNames| ==> r.value.allPredictions[ClassNames[i]] == p[i] * 100.0
    ensures |p| == 0 ==> r == Raised(EmptyArgmaxMessage)
    ensures 0 < |p| < |ClassNames| ==> r == Raised(IndexOutOfBoundsMessage(|p|, |p|))
    ensures |ClassNames| <= |p| && r.Raised? ==> r == Raised(ListIndexMessage)
  {
    ClassifySucceedsIff(p);
    match Classify(p)
    case Raised(e) => Raised(e)
    case Done(c) =>
      if |p| < |ClassNames| then
        Raised(IndexOutOfBoundsMessage(|p|, |p|))
      else
        AllPredictionsSpec(p, |ClassNames|);
        FirstMaxUnique(p, c.index, Argmax(p));
        Done(Prediction(c.className, c.confidence, c.priority, c.description,
                        AllPredictions(p, |ClassNames|)))
  }

  /** Scores in [0, 1] give a confidence and per-label percentages in [0, 100]. */
  lemma ConfidenceInRange(p: seq<real>)
    requires forall i :: 0 <= i < |p| ==> 0.0 <= p[i] <= 1.0
    requires Interpret(p).Done?
    ensures 0.0 <= Interpret(p).value.confidence <= 100.0
    ensures forall name :: name in Interpret(p).value.allPredictions ==>
              0.0 <= Interpret(p).value.allPredictions[name] <= 100.0
  {
  }

  /** A vector favouring the third label is read as a pothole with 90 %
      confidence and HIGH priority. */
  lemma PotholeExample()
    ensures Interpret([0.01, 0.02, 0.90, 0.03, 0.02, 0.02]).Done?
    ensures Interpret([0.01, 0.02, 0.90, 0.03, 0.02, 0.02]).value.className == "potholes"
    ensures Interpret([0.01, 0.02, 0.90, 0.03, 0.02, 0.02]).value.confidence == 90.0
    ensures Interpret([0.01, 0.02, 0.90, 0.03, 0.02, 0.02]).value.priority == "HIGH"
  {
    var p: seq<real> := [0.01, 0.02, 0.90, 0.03, 0.02, 0.02];
    assert IsFirstMax(p, 2);
    FirstMaxUnique(p, 2, Argmax(p));
  }
}
