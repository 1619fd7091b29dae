/** The prediction step (app.py:113-123): the classifier's class for the
    aligned row becomes the label "ADMITIDO" or "NO ADMITIDO", and that label
    picks the message shown to the applicant. */
module Outcome {
  import opened FeatureSpec

  /** The fitted classifier: its predicted class for a row, and the
      probability it gives to class 1 (admitted). */
  datatype Classifier = Classifier(
    predict: Row -> Fallible<int>,
    admissionProbability: Row -> Fallible<real>)

  /** What the page shows after the button is pressed. */
  datatype Notice =
    | Admitted(verdict: string, probability: real) // the success box
    | NotAdmitted(probability: real)               // the error box for a rejection
    | PredictionError(message: string)             // the error box for an exception

  /** The label for a predicted class (app.py:117). */
  function OutcomeLabel(pred: int): (s: string)
    ensures s == "ADMITIDO" <==> pred == 1
    ensures s == "NO ADMITIDO" <==> pred != 1
  {
    if pred == 1 then "ADMITIDO" else "NO ADMITIDO"
  }

  /** The body of the `try` block and its handler (app.py:114-123). */
  function Announce(clf: Classifier, row: Row): (n: Notice)
    ensures n.Admitted? <==> clf.predict(row) == Done(1) && clf.admissionProbability(row).Done?
    ensures n.NotAdmitted? <==>
              clf.predict(row).Done? && clf.predict(row).value != 1 && clf.admissionProbability(row).Done?
    ensures n.PredictionError? <==> clf.predict(row).Raised? || clf.admissionProbability(row).Raised?
    ensures n.Admitted? ==> n.verdict == "ADMITIDO" && n.probability == clf.admissionProbability(row).value
    ensures n.NotAdmitted? ==> n.probability == clf.admissionProbability(row).value
  {
    match clf.predict(row)
    case Raised(m) => PredictionError(m)
    case Done(pred) =>
      match clf.admissionProbability(row)
      case Raised(m) => PredictionError(m)
      case Done(p) =>
        var resultado := OutcomeLabel(pred);
        if resultado == "ADMITIDO" then Admitted(resultado, p) else NotAdmitted(p)
  }
}
