/**
 * The combined web application's own logic: the `VisionPredictor` that reads
 * the label file and runs the preprocessed image through the classifier, the
 * prediction list the image route builds, and the AQI route.
 */
module CombinedApp {
  import opened Wrappers
  import opened Rounding
  import opened Text
  import opened Images
  import opened ImagePreprocessing
  import opened PollutionData

  /** A label with no line boundary in it and no white space at either end. */
  predicate IsCleanLabel(tag: string)
  {
    && IsLine(tag)
    && (tag == [] || (!IsSpace(tag[0]) && !IsSpace(tag[|tag| - 1])))
  }

  /** The labels: every line of the label file, stripped; each of them is clean. */
  function ParseLabels(text: string): (labels: seq<string>)
    ensures |labels| == |SplitLines(text)|
    ensures forall i :: 0 <= i < |labels| ==> labels[i] == Strip(SplitLines(text)[i])
    ensures forall i :: 0 <= i < |labels| ==> IsCleanLabel(labels[i])
  {
    var lines := SplitLines(text);
    StrippedLinesAreClean(lines);
    seq(|lines|, (i: int) requires 0 <= i < |lines| => Strip(lines[i]))
  }

  /** Stripping lines leaves clean labels. */
  lemma StrippedLinesAreClean(lines: seq<string>)
    requires forall i :: 0 <= i < |lines| ==> IsLine(lines[i])
    ensures forall i :: 0 <= i < |lines| ==> IsCleanLabel(Strip(lines[i]))
  {
    forall i | 0 <= i < |lines|
      ensures IsCleanLabel(Strip(lines[i]))
    {
      StrippedLineIsClean(lines[i]);
    }
  }

  /** Stripping a line leaves a clean label. */
  lemma StrippedLineIsClean(s: string)
    requires IsLine(s)
    ensures IsCleanLabel(Strip(s))
  {
    StripIsTrimmedInfix(s);
    var start := |s| - |StripStart(s)|;
    InfixIsLine(s, start, start + |Strip(s)|);
  }

  /** A label file written one clean label per line reads back as those labels. */
  lemma ParseLabelsRoundTrip(labels: seq<string>)
    requires forall i :: 0 <= i < |labels| ==> IsCleanLabel(labels[i])
    ensures ParseLabels(JoinLines(labels)) == labels
  {
    var lines := SplitLines(JoinLines(labels));
    forall i | 0 <= i < |labels|
      ensures IsLine(labels[i])
    {
      assert IsCleanLabel(labels[i]);
    }
    SplitJoinLines(labels);
    assert lines == labels;
    var parsed := ParseLabels(JoinLines(labels));
    assert |parsed| == |labels|;
    forall i | 0 <= i < |labels|
      ensures parsed[i] == labels[i]
    {
      assert parsed[i] == Strip(labels[i]);
      CleanLabelIsStripped(labels[i]);
    }
  }

  /** A clean label is its own strip. */
  lemma CleanLabelIsStripped(tag: string)
    requires IsCleanLabel(tag)
    ensures Strip(tag) == tag
  {
    StripFixesTrimmed(tag);
  }

  /** The bounding box field of the response; the classifier never fills it. */
  datatype BoundingBox = BoundingBox(left: real, top: real, width: real, height: real)

  /** One entry of the image route's `predictions` list. */
  datatype Prediction = Prediction(tagName: string, probability: real, tagId: string, boundingBox: Option<BoundingBox>)

  function Min(a: nat, b: nat): nat
  {
    if a < b then a else b
  }

  /**
   * The list comprehension over `zip(labels, outputs)`: one entry per label
   * that has an output, in label order; the rest of the longer list is dropped.
   */
  function Predictions(labels: seq<string>, outputs: seq<real>): (ps: seq<Prediction>)
    ensures |ps| == Min(|labels|, |outputs|)
    ensures forall i :: 0 <= i < |ps| ==> ps[i] == Prediction(labels[i], outputs[i], "", None)
  {
    if labels == [] || outputs == [] then []
    else [Prediction(labels[0], outputs[0], "", None)] + Predictions(labels[1..], outputs[1..])
  }

  /** The inference engine's description of an input or output tensor. */
  datatype TensorDetails = TensorDetails(index: nat, shape: seq<nat>)

  /** Why loading the classifier fails. */
  datatype LoadError = NotOneInputTensor | NotOneOutputTensor | InputShapeTooShort

  /** Why a classification fails. */
  datatype VisionError = PreprocessFailed(error: PreprocessError) | NotOneOutputRow

  /** The loaded classifier: tensor slots, its preprocessor and its labels, fixed at load time. */
  class VisionPredictor {
    const inputIndex: nat
    const outputIndex: nat
    const preprocessor: Preprocessor
    const labels: seq<string>

    /** The body of `__init__` once the tensor counts have been checked. */
    constructor (input: TensorDetails, output: TensorDetails, labelsText: string)
      requires |input.shape| >= 2
      ensures inputIndex == input.index && outputIndex == output.index
      ensures preprocessor == Preprocessor(input.shape[1], false)
      ensures labels == ParseLabels(labelsText)
    {
      inputIndex := input.index;
      outputIndex := output.index;
      preprocessor := Preprocessor(input.shape[1], false);
      labels := ParseLabels(labelsText);
    }

    /**
     * `predict`: preprocess, run the engine (infer stands for setting the input
     * tensor, invoking and reading the output tensor), and take the single row.
     */
    method Predict(img: Image, orientation: Option<int>, kernel: Kernel, infer: Image -> seq<seq<real>>)
      returns (r: Result<seq<real>, VisionError>)
      ensures img.width == 0 || img.height == 0 ==> r == Failure(PreprocessFailed(ZeroDivision))
      ensures img.width > 0 && img.height > 0 && preprocessor.inputSize == 0 ==> r == Failure(PreprocessFailed(EmptyResize))
      ensures img.width > 0 && img.height > 0 && preprocessor.inputSize > 0 ==>
        var input := preprocessor.Preprocess(img, orientation, kernel).value;
        && input.width == preprocessor.inputSize && input.height == preprocessor.inputSize
        && (|infer(input)| == 1 ==> r == Success(infer(input)[0]))
        && (|infer(input)| != 1 ==> r == Failure(NotOneOutputRow))
    {
      var input := preprocessor.Preprocess(img, orientation, kernel);
      if input.Failure? {
        return Failure(PreprocessFailed(input.error));
      }
      var outputs := infer(input.value);
      if |outputs| != 1 {
        return Failure(NotOneOutputRow);
      }
      return Success(outputs[0]);
    }
  }

  /** `VisionPredictor(...)`: exactly one input and one output tensor, the input's size read from its shape. */
  method LoadVisionPredictor(inputs: seq<TensorDetails>, outputs: seq<TensorDetails>, labelsText: string)
    returns (r: Result<VisionPredictor, LoadError>)
    ensures |inputs| != 1 ==> r == Failure(NotOneInputTensor)
    ensures |inputs| == 1 && |outputs| != 1 ==> r == Failure(NotOneOutputTensor)
    ensures |inputs| == 1 && |outputs| == 1 && |inputs[0].shape| < 2 ==> r == Failure(InputShapeTooShort)
    ensures |inputs| == 1 && |outputs| == 1 && |inputs[0].shape| >= 2 ==> r.Success?
    ensures r.Success? ==>
      && |inputs| == 1 && |outputs| == 1 && |inputs[0].shape| >= 2
      && fresh(r.value)
      && r.value.inputIndex == inputs[0].index && r.value.outputIndex == outputs[0].index
      && r.value.preprocessor == Preprocessor(inputs[0].shape[1], false)
      && r.value.labels == ParseLabels(labelsText)
  {
    if |inputs| != 1 {
      return Failure(NotOneInputTensor);
    }
    if |outputs| != 1 {
      return Failure(NotOneOutputTensor);
    }
    if |inputs[0].shape| < 2 {
      return Failure(InputShapeTooShort);
    }
    var predictor := new VisionPredictor(inputs[0], outputs[0], labelsText);
    return Success(predictor);
  }

  /**
   * The AQI route's answers: no model (500), a missing metric (400 naming it),
   * an exception while predicting (500), or the prediction.
   */
  datatype AqiRouteResponse =
    | ModelUnavailable
    | MissingMetric(metric: string)
    | PredictionFailed
    | Predicted(aqi: int, metricsUsed: map<string, Value>)

  function StatusCode(response: AqiRouteResponse): int
  {
    match response
    case ModelUnavailable => 500
    case MissingMetric(_) => 400
    case PredictionFailed => 500
    case Predicted(_, _) => 200
  }

  /**
   * `predict_aqi_api`: without a model 500; otherwise 400 naming the first
   * missing metric; otherwise the model's output truncated by `int()`, or 500
   * when the prediction raises. predict stands for the loaded model applied to
   * the request's data frame; None is an exception (a value the model cannot
   * read, for instance), which the handler turns into a 500 answer.
   */
  method PredictAqiRoute(predict: Option<map<string, Value> -> Option<real>>, data: map<string, Value>)
    returns (response: AqiRouteResponse)
    ensures predict.None? <==> response == ModelUnavailable
    ensures predict.Some? ==> (response.MissingMetric? <==> !AllPresent(data))
    ensures response.MissingMetric? ==> IsFirstMissing(data, response.metric)
    ensures predict.Some? && AllPresent(data) ==> (response == PredictionFailed <==> predict.value(data).None?)
    ensures response.Predicted? ==>
      && predict.Some? && predict.value(data).Some?
      && response.aqi == TruncateToInt(predict.value(data).value)
      && response.metricsUsed == data
    ensures StatusCode(response) == 400 <==> predict.Some? && !AllPresent(data)
    ensures StatusCode(response) == 500 <==>
      predict.None? || (AllPresent(data) && predict.value(data).None?)
  {
    if predict.None? {
      return ModelUnavailable;
    }
    var missing := FirstMissing(data);
    if missing.Some? {
      return MissingMetric(missing.value);
    }
    var prediction := predict.value(data);
    if prediction.None? {
      return PredictionFailed;
    }
    return Predicted(TruncateToInt(prediction.value), data);
  }
}
