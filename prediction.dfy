/**
 * What the submit branch does with the encoded row (app.py:193-208): ask the
 * classifier for a label and a class distribution, and report the outcome
 * with the probability of the reported class as its confidence.
 */
module Prediction {
  import opened Wrappers
  import opened Schema
  import Encoder

  datatype Outcome = Positive | Negative

  /** The message shown: which outcome, and the confidence printed with it. */
  datatype Verdict = Verdict(outcome: Outcome, confidence: real)

  /**
   * Failures the `except` of app.py:207-208 turns into an error message: one
   * raised by the classifier itself, or an index past the end of the returned
   * distribution.
   */
  datatype PredictionError = ClassifierError(message: string) | MissingProbability

  /** The distribution entry that belongs to an outcome. */
  function ClassIndex(o: Outcome): nat
  {
    match o
    case Positive => 1
    case Negative => 0
  }

  /**
   * The label-to-confidence choice of app.py:198-201: label 1 is reported as
   * a positive outcome, any other label as negative, each with the
   * probability the classifier gives that class.
   */
  function Report(predicted: int, proba: seq<real>): (r: Result<Verdict, PredictionError>)
    ensures r.Ok? <==> |proba| > (if predicted == 1 then 1 else 0)
    ensures r.Err? ==> r.error == MissingProbability
    ensures r.Ok? ==> (r.value.outcome == Positive <==> predicted == 1)
    ensures r.Ok? ==> r.value.confidence == proba[ClassIndex(r.value.outcome)]
  {
    if predicted == 1 then
      if |proba| > 1 then Ok(Verdict(Positive, proba[1])) else Err(MissingProbability)
    else
      if |proba| > 0 then Ok(Verdict(Negative, proba[0])) else Err(MissingProbability)
  }

  /** A probability distribution over the two classes. */
  predicate IsDistribution(proba: seq<real>)
  {
    |proba| == 2 && proba[0] >= 0.0 && proba[1] >= 0.0 && proba[0] + proba[1] == 1.0
  }

  /**
   * For a binary classifier's distribution the report never fails, its
   * confidence is a probability, and the other class holds the rest.
   */
  lemma ReportOnDistribution(predicted: int, proba: seq<real>)
    requires IsDistribution(proba)
    ensures Report(predicted, proba).Ok?
    ensures var c := Report(predicted, proba).value.confidence;
      0.0 <= c <= 1.0 && c + proba[1 - ClassIndex(Report(predicted, proba).value.outcome)] == 1.0
  {
  }

  /**
   * One submission, app.py:175-208: encode the answers, run the classifier on
   * the row (its two calls are parameters: the model is an opaque artifact),
   * and report. Errors raised by either call are caught and reported.
   */
  method Submit(a: Answers, predict: seq<real> -> Result<int, string>,
                predictProba: seq<real> -> Result<seq<real>, string>)
    returns (row: seq<real>, result: Result<Verdict, PredictionError>)
    ensures row == FeatureVector(a)
    ensures predict(row).Err? ==> result == Err(ClassifierError(predict(row).error))
    ensures predict(row).Ok? && predictProba(row).Err? ==>
      result == Err(ClassifierError(predictProba(row).error))
    ensures predict(row).Ok? && predictProba(row).Ok? ==>
      result == Report(predict(row).value, predictProba(row).value)
  {
    var userData;
    userData, row := Encoder.Encode(a);
    var prediction := predict(row);
    if prediction.Err? {
      return row, Err(ClassifierError(prediction.error));
    }
    var proba := predictProba(row);
    if proba.Err? {
      return row, Err(ClassifierError(proba.error));
    }
    result := Report(prediction.value, proba.value);
  }
}
