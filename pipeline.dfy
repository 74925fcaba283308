/**
 * Scaling and inference around the encoder: the scaler's transform is
 * called inside a try/except that turns an exception into a message, and
 * pressing the predict button either shows that message or runs the
 * classifier. The fitted scaler and classifier are opaque; only the
 * interfaces the program calls are modelled.
 */
module Inference {
  import opened Optional
  import opened EmployeeForm
  import opened FeatureEncoder

  /** What the scaler's transform does with one frame: a scaled row, or an exception's message. */
  datatype Transformed = Scaled(values: seq<real>) | Raised(message: string)

  /**
   * The loaded artifacts: the scaler's transform, and the classifier's
   * feature names, label and positive-class probability.
   */
  datatype Artifacts = Artifacts(
    transform: Frame -> Transformed,
    featureNames: seq<string>,
    predict: seq<real> -> int,
    predictProba: seq<real> -> real)

  /** What one run of the page shows once the inputs are read. */
  datatype Response =
    | Idle                                      // the predict button was not pressed
    | PreprocessingError(message: string)       // the preprocessing error is shown instead of a prediction
    | Prediction(predictedClass: int, probability: real) // the predicted class and attrition probability
    | PredictedWithoutInput                     // the classifier is called with no scaled row

  /**
   * The pair the input step returns: the scaled row and no message when
   * the transform succeeds, no row and the exception's message when it raises.
   */
  function Preprocess(artifacts: Artifacts, x: EmployeeInput): (r: (Option<seq<real>>, Option<string>))
    ensures r.0.Some? <==> r.1.None?
    ensures r.0.Some? ==> artifacts.transform(Encode(artifacts.featureNames, x)) == Scaled(r.0.value)
    ensures r.1.Some? ==> artifacts.transform(Encode(artifacts.featureNames, x)) == Raised(r.1.value)
  {
    match artifacts.transform(Encode(artifacts.featureNames, x))
    case Scaled(values) => (Some(values), None)
    case Raised(message) => (None, Some(message))
  }

  /** Encode the form's inputs against the classifier's feature names, then scale them, capturing any failure. */
  method GetUserInputs(artifacts: Artifacts, x: EmployeeInput)
    returns (inputScaled: Option<seq<real>>, errorMessage: Option<string>)
    ensures (inputScaled, errorMessage) == Preprocess(artifacts, x)
    ensures inputScaled.Some? <==> errorMessage.None?
  {
    var inputFrame := EncodeInputs(artifacts.featureNames, x);
    match artifacts.transform(inputFrame)
    case Scaled(values) =>
      inputScaled, errorMessage := Some(values), None;
    case Raised(message) =>
      inputScaled, errorMessage := None, Some(message);
  }

  /** Python's truth value of an optional string: None and the empty string are false. */
  predicate Truthy(s: Option<string>): (b: bool)
    ensures b ==> s.Some?
    ensures s.Some? && !b ==> s == Some("")
    ensures s == Some("") ==> !b
  {
    s.Some? && s.value != ""
  }

  /**
   * The button handler as written: it tests the message for truth, so an
   * exception whose message is empty lets the classifier run on no input.
   */
  function RespondAsWritten(artifacts: Artifacts, pressed: bool, inputScaled: Option<seq<real>>,
                            errorMessage: Option<string>): (r: Response)
    ensures r == Idle <==> !pressed
    ensures r.PreprocessingError? <==> pressed && Truthy(errorMessage)
    ensures r.PreprocessingError? ==> r.message == errorMessage.value
    ensures r.Prediction? <==> pressed && !Truthy(errorMessage) && inputScaled.Some?
    ensures r.Prediction? ==> r == Prediction(artifacts.predict(inputScaled.value), artifacts.predictProba(inputScaled.value))
    ensures r == PredictedWithoutInput <==> pressed && !Truthy(errorMessage) && inputScaled.None?
  {
    if !pressed then Idle
    else if Truthy(errorMessage) then PreprocessingError(errorMessage.value)
    else match inputScaled
      case None => PredictedWithoutInput
      case Some(row) => Prediction(artifacts.predict(row), artifacts.predictProba(row))
  }

  /**
   * The button handler as intended: it shows the error whenever there is
   * one, and otherwise predicts from the scaled row.
   */
  function Respond(artifacts: Artifacts, pressed: bool, inputScaled: Option<seq<real>>,
                   errorMessage: Option<string>): (r: Response)
    requires inputScaled.Some? <==> errorMessage.None?
    ensures r != PredictedWithoutInput
    ensures r.Prediction? <==> pressed && errorMessage.None?
    ensures r.PreprocessingError? <==> pressed && errorMessage.Some?
    ensures r.PreprocessingError? ==> r.message == errorMessage.value
    ensures r.Prediction? ==> r == Prediction(artifacts.predict(inputScaled.value), artifacts.predictProba(inputScaled.value))
  {
    if !pressed then Idle
    else match errorMessage
      case Some(message) => PreprocessingError(message)
      case None => Prediction(artifacts.predict(inputScaled.value), artifacts.predictProba(inputScaled.value))
  }

  /**
   * One run of the page with the intended handler: read and preprocess the
   * inputs, then answer the button. A prediction is made exactly when the transform succeeds, and
   * from exactly the row it produced.
   */
  method Run(artifacts: Artifacts, x: EmployeeInput, pressed: bool) returns (r: Response)
    ensures !pressed ==> r == Idle
    ensures pressed ==>
              match artifacts.transform(Encode(artifacts.featureNames, x))
              case Scaled(row) => r == Prediction(artifacts.predict(row), artifacts.predictProba(row))
              case Raised(message) => r == PreprocessingError(message)
  {
    var inputScaled, errorMessage := GetUserInputs(artifacts, x);
    r := Respond(artifacts, pressed, inputScaled, errorMessage);
  }

  /**
   * One run of the page as written: the same preprocessing, answered by the
   * as-written handler. It differs from Run only when the transform raises
   * with an empty message, where it calls the classifier with no row.
   */
  method RunAsWritten(artifacts: Artifacts, x: EmployeeInput, pressed: bool) returns (r: Response)
    ensures !pressed ==> r == Idle
    ensures pressed ==>
              match artifacts.transform(Encode(artifacts.featureNames, x))
              case Scaled(row) => r == Prediction(artifacts.predict(row), artifacts.predictProba(row))
              case Raised(message) => r == if message == "" then PredictedWithoutInput else PreprocessingError(message)
  {
    var inputScaled, errorMessage := GetUserInputs(artifacts, x);
    r := RespondAsWritten(artifacts, pressed, inputScaled, errorMessage);
  }

  /**
   * The as-written handler fails its purpose on one input: when the
   * transform raises an exception with an empty message, preprocessing
   * returns no row and an empty message, and the handler calls the
   * classifier anyway.
   */
  lemma EmptyMessageReachesClassifier(artifacts: Artifacts, x: EmployeeInput)
    requires artifacts.transform(Encode(artifacts.featureNames, x)) == Raised("")
    ensures Preprocess(artifacts, x) == (None, Some(""))
    ensures RespondAsWritten(artifacts, true, None, Some("")) == PredictedWithoutInput
    ensures Respond(artifacts, true, None, Some("")) == PreprocessingError("")
  {
  }

  /** On every other preprocessing result the as-written and intended handlers agree. */
  lemma RespondAsWrittenAgrees(artifacts: Artifacts, pressed: bool, x: EmployeeInput)
    requires Preprocess(artifacts, x).1 != Some("")
    ensures var (inputScaled, errorMessage) := Preprocess(artifacts, x);
            RespondAsWritten(artifacts, pressed, inputScaled, errorMessage)
            == Respond(artifacts, pressed, inputScaled, errorMessage)
  {
  }
}
