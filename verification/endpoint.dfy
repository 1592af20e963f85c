/** The /predict handler as a whole: symptom names in, either the five most
    probable diseases with their probabilities or the error response out. */
module Endpoint {

  import opened Wrappers
  import opened Tables
  import opened Encoder
  import opened Ranking

  /** One entry of the JSON response: {"disease": ..., "probability": ...}. */
  datatype Prediction = Prediction(disease: string, probability: real)

  /** What the handler sends back: the ranked list (status 200), or the error
      object with its HTTP status. */
  datatype Response =
    | Ranked(predictions: seq<Prediction>)
    | Failure(status: nat, message: string)

  const InternalServerError: nat := 500
  const ErrorPrefix: string := "An error occurred while predicting the disease: "

  /** str() of the IndexError Python raises for a list index past the end. */
  const ListIndexOutOfRange: string := "list index out of range"

  /** The handler's except branch for an exception with the given text. */
  function ErrorResponse(reason: string): Response {
    Failure(InternalServerError, ErrorPrefix + reason)
  }

  /** [diseases[i] for i in top5_idx]: the disease names of the chosen classes,
      or None where the comprehension raises because a class number has no
      entry in the disease table. */
  function DiseaseNames(idx: seq<nat>): (r: Option<seq<string>>)
    ensures r.Some? <==> IndicesBelow(idx, |Diseases|)
    ensures r.Some? ==>
      (|r.value| == |idx| && forall k :: 0 <= k < |idx| ==> r.value[k] == Diseases[idx[k]])
  {
    if |idx| == 0 then Some([])
    else if idx[0] >= |Diseases| then None
    else match DiseaseNames(idx[1..])
      case None => None
      case Some(rest) => Some([Diseases[idx[0]]] + rest)
  }

  /** The response loop: for i in range(5), append the i-th name with the i-th
      probability. Reading past the end of the names raises, and the partial
      list is discarded (None). */
  method BuildResponse(names: seq<string>, probs: seq<real>) returns (r: Option<seq<Prediction>>)
    requires |names| == |probs|
    ensures r.Some? <==> |names| >= TopCount
    ensures r.Some? ==>
      (|r.value| == TopCount && forall i :: 0 <= i < TopCount ==> r.value[i] == Prediction(names[i], probs[i]))
  {
    var response: seq<Prediction> := [];
    for i := 0 to TopCount
      invariant i <= |names|
      invariant |response| == i
      invariant forall j :: 0 <= j < i ==> response[j] == Prediction(names[j], probs[j])
    {
      if i >= |names| {
        return None;
      }
      response := response + [Prediction(names[i], probs[i])];
    }
    return Some(response);
  }

  /** What the handler answers once the classifier has produced the row p and
      numpy.argsort the order. */
  function Rank(p: seq<real>, order: seq<nat>): Response
    requires IsArgsort(p, order)
  {
    var probs := TopValues(p);
    match DiseaseNames(TopIndices(order))
    case None => ErrorResponse(ListIndexOutOfRange)
    case Some(names) =>
      if |names| < TopCount then ErrorResponse(ListIndexOutOfRange)
      else
        TopValuesMatchIndices(p, order);
        Ranked(seq(TopCount, i requires 0 <= i < TopCount => Prediction(names[i], probs[i])))
  }

  /** The handler succeeds exactly when the row has at least five classes and
      each of the five chosen classes has a disease name; otherwise it answers
      500 with the IndexError text, never a partial list. */
  lemma RankSucceedsIff(p: seq<real>, order: seq<nat>)
    requires IsArgsort(p, order)
    ensures Rank(p, order).Ranked? <==>
      |p| >= TopCount && IndicesBelow(TopIndices(order), |Diseases|)
    ensures Rank(p, order).Failure? ==>
      Rank(p, order) == Failure(InternalServerError, ErrorPrefix + ListIndexOutOfRange)
  {
    TopValuesMatchIndices(p, order);
  }

  /** A successful answer pairs the first five chosen names with the first
      five sorted values. */
  lemma RankedShape(p: seq<real>, order: seq<nat>)
    requires IsArgsort(p, order)
    requires Rank(p, order).Ranked?
    ensures |p| >= TopCount && |TopIndices(order)| == |TopValues(p)| == TopCount
    ensures |Rank(p, order).predictions| == TopCount
    ensures forall i :: 0 <= i < TopCount ==>
      TopIndices(order)[i] < |Diseases| &&
      Rank(p, order).predictions[i] == Prediction(Diseases[TopIndices(order)[i]], TopValues(p)[i])
  {
    RankSucceedsIff(p, order);
    TopValuesMatchIndices(p, order);
  }

  /** A successful answer lists exactly five distinct classes, each under its
      disease name and with its own probability from the row; the five
      disease names are distinct too. */
  lemma RankedEntries(p: seq<real>, order: seq<nat>)
    requires IsArgsort(p, order)
    requires Rank(p, order).Ranked?
    ensures |Rank(p, order).predictions| == TopCount == |TopIndices(order)|
    ensures forall i :: 0 <= i < TopCount ==>
      TopIndices(order)[i] < |Diseases| && TopIndices(order)[i] < |p| &&
      Rank(p, order).predictions[i] == Prediction(Diseases[TopIndices(order)[i]], p[TopIndices(order)[i]])
    ensures forall i, j :: 0 <= i < j < TopCount ==> TopIndices(order)[i] != TopIndices(order)[j]
    ensures forall i, j :: 0 <= i < j < TopCount ==>
      Rank(p, order).predictions[i].disease != Rank(p, order).predictions[j].disease
  {
    RankedShape(p, order);
    TopValuesMatchIndices(p, order);
    TopIndicesDistinct(p, order);
    DiseasesDistinct();
  }

  /** A successful answer is ordered and complete: the probabilities never
      increase down the list, and every class not listed is no more probable
      than the fifth one listed. */
  lemma RankedOrderedAndComplete(p: seq<real>, order: seq<nat>)
    requires IsArgsort(p, order)
    requires Rank(p, order).Ranked?
    ensures forall i, j :: 0 <= i <= j < TopCount ==>
      Rank(p, order).predictions[i].probability >= Rank(p, order).predictions[j].probability
    ensures forall c :: 0 <= c < |p| && c !in TopIndices(order) ==>
      p[c] <= Rank(p, order).predictions[TopCount - 1].probability
  {
    var preds := Rank(p, order).predictions;
    var top := TopIndices(order);
    assert |p| >= TopCount && |preds| == TopCount && |TopValues(p)| == TopCount &&
      forall i :: 0 <= i < TopCount ==> preds[i].probability == TopValues(p)[i]
    by {
      RankedShape(p, order);
    }
    TopValuesDescending(p);
    assert TopValues(p)[TopCount - 1] == p[top[TopCount - 1]] by {
      TopValuesMatchIndices(p, order);
    }
    TopIndicesComplete(p, order);
  }

  /** What the handler answers once the classifier has run: its exception
      turned into the error response, or the ranking of its row. */
  function Answer(outcome: Result<seq<real>>, argsort: seq<real> -> seq<nat>): Response
    requires forall q :: IsArgsort(q, argsort(q))
  {
    match outcome
    case Raised(message) => ErrorResponse(message)
    case Ok(p) => Rank(p, argsort(p))
  }

  /** The handler's error path as a whole: an exception from the classifier
      becomes the 500 answer carrying its text; once the row exists, the answer
      is a failure exactly when fewer than five classes come back or a chosen
      class has no disease name, and that failure is the 500 answer carrying
      the IndexError text. A successful answer always has all five entries,
      never a partial list. */
  lemma AnswerErrorPath(outcome: Result<seq<real>>, argsort: seq<real> -> seq<nat>)
    requires forall q :: IsArgsort(q, argsort(q))
    ensures outcome.Raised? ==>
      Answer(outcome, argsort) == Failure(InternalServerError, ErrorPrefix + outcome.message)
    ensures outcome.Ok? ==>
      (Answer(outcome, argsort).Failure? <==>
        !(|outcome.value| >= TopCount && IndicesBelow(TopIndices(argsort(outcome.value)), |Diseases|)))
    ensures outcome.Ok? && Answer(outcome, argsort).Failure? ==>
      Answer(outcome, argsort) == Failure(InternalServerError, ErrorPrefix + ListIndexOutOfRange)
    ensures Answer(outcome, argsort).Ranked? ==> |Answer(outcome, argsort).predictions| == TopCount
  {
    if outcome.Ok? {
      var p := outcome.value;
      RankSucceedsIff(p, argsort(p));
      if Rank(p, argsort(p)).Ranked? {
        RankedShape(p, argsort(p));
      }
    }
  }

  /** The handler from the probability row on: take the top five of the
      argsort and of the sorted row, look up their disease names and build
      the response list, turning an IndexError into the error response. */
  method RankRow(proba: seq<real>, order: seq<nat>) returns (r: Response)
    requires IsArgsort(proba, order)
    ensures r == Rank(proba, order)
  {
    var top5Idx := TopIndices(order);
    var top5Proba := TopValues(proba);
    TopValuesMatchIndices(proba, order);
    var top5Diseases := DiseaseNames(top5Idx);
    if top5Diseases.None? {
      return ErrorResponse(ListIndexOutOfRange);
    }
    var response := BuildResponse(top5Diseases.value, top5Proba);
    if response.None? {
      return ErrorResponse(ListIndexOutOfRange);
    }
    assert response.value
        == seq(TopCount, i requires 0 <= i < TopCount => Prediction(top5Diseases.value[i], top5Proba[i]));
    r := Ranked(response.value);
  }

  /** The /predict handler. The classifier (predict_proba on the one-row
      batch, yielding its row or the text of the exception it raised) and
      numpy.argsort are parameters: any argsort that meets IsArgsort, whatever
      it does with ties. Returns the response and the names warned about as
      unknown. */
  method Predict(names: seq<string>, classify: seq<int> -> Result<seq<real>>, argsort: seq<real> -> seq<nat>)
    returns (r: Response, unknown: seq<string>)
    requires forall q :: IsArgsort(q, argsort(q))
    ensures unknown == UnknownNames(names)
    ensures r == Answer(classify(Encoding(names)), argsort)
  {
    var features;
    features, unknown := EncodeSymptoms(names);
    var outcome := classify(features[..]);
    if outcome.Raised? {
      return ErrorResponse(outcome.message), unknown;
    }
    var proba := outcome.value;
    r := RankRow(proba, argsort(proba));
  }
}
