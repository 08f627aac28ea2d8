/**
 * `predict_aqi` and the module-global model it reads: the regressor with its
 * feature scaler, set by `initialize_aqi_model`.
 */
module AqiPrediction {
  import opened Wrappers
  import opened Rounding
  import opened PollutionData
  import opened AqiCategories

  /** `max(0, min(500, x))`: the regressor output kept within [0, 500]. */
  function Clamp(x: real): (r: real)
    ensures 0.0 <= r <= 500.0
    ensures 0.0 <= x <= 500.0 ==> r == x
    ensures x < 0.0 ==> r == 0.0
    ensures x > 500.0 ==> r == 500.0
  {
    var upper := if x < 500.0 then x else 500.0;
    if upper > 0.0 then upper else 0.0
  }

  /**
   * The fitted scaler and regressor, as functions of the feature vector
   * (the learned standardisation and random forest are not part of this model).
   */
  datatype AqiModel = AqiModel(scale: seq<real> -> seq<real>, regress: seq<real> -> real)

  /** What `predict_aqi` raises. */
  datatype PredictError =
    | NotInitialized
    | MissingRequiredFeature(feature: string)
    | NotNumeric(feature: string)

  /** The dictionary `predict_aqi` returns. */
  datatype AqiResult = AqiResult(
    predictedAqi: real,
    aqiCategory: string,
    aqiRounded: int,
    inputValues: map<string, Value>,
    confidence: Option<real>,
    modelType: string)

  const ModelType := "Simple Random Forest Model"

  /**
   * `float(data[f])` for each f of fs in turn, as the data-frame row is built;
   * the first value float() rejects stops it.
   */
  function FeatureVector(data: map<string, Value>, fs: seq<string>): (r: Result<seq<real>, string>)
    requires forall i :: 0 <= i < |fs| ==> fs[i] in data
    ensures r.Success? ==> |r.value| == |fs| && forall i :: 0 <= i < |fs| ==> data[fs[i]] == Num(r.value[i])
    ensures r.Failure? ==> exists i :: 0 <= i < |fs| && fs[i] == r.error && data[fs[i]].NonNumeric?
                             && forall j :: 0 <= j < i ==> data[fs[j]].Num?
    ensures r.Success? <==> forall i :: 0 <= i < |fs| ==> data[fs[i]].Num?
  {
    if fs == [] then Success([])
    else match data[fs[0]]
      case NonNumeric(_) => Failure(fs[0])
      case Num(x) =>
        match FeatureVector(data, fs[1..])
        case Failure(f) =>
          var i :| 0 <= i < |fs[1..]| && fs[1..][i] == f && data[fs[1..][i]].NonNumeric?
                   && forall j :: 0 <= j < i ==> data[fs[1..][j]].Num?;
          assert fs[i + 1] == f && forall j :: 0 <= j < i + 1 ==> data[fs[j]].Num?;
          Failure(f)
        case Success(rest) => Success([x] + rest)
  }

  /** How the stored model file turned out at start-up. */
  datatype StoredModel = NoModelFile | Loaded(model: AqiModel) | Unreadable

  /**
   * How `train_simple_model` ended: without touching the global regressor (no
   * dataset, or a failure before the regressor is created), after assigning it
   * to the global and then failing (fitting, scoring or saving raised), or
   * with success.
   */
  datatype TrainingOutcome =
    | NotTrained
    | FailedAfterAssign(model: AqiModel)
    | Trained(model: AqiModel)

  /** The module-global state of the AQI predictor. */
  class AqiService {
    var model: Option<AqiModel>

    /** At import time no model is loaded. */
    constructor ()
      ensures model.None?
    {
      model := None;
    }

    /**
     * `initialize_aqi_model`: a readable model file wins; without a file the
     * training run decides; an unreadable file fails without training. A
     * training run that fails after assigning the regressor leaves it set.
     */
    method Initialize(stored: StoredModel, training: TrainingOutcome) returns (ok: bool)
      modifies this
      ensures ok <==> stored.Loaded? || (stored.NoModelFile? && training.Trained?)
      ensures stored.Loaded? ==> model == Some(stored.model)
      ensures stored.NoModelFile? && !training.NotTrained? ==> model == Some(training.model)
      ensures stored.Unreadable? || (stored.NoModelFile? && training.NotTrained?) ==> model == old(model)
    {
      match stored
      case Loaded(m) =>
        model := Some(m);
        return true;
      case Unreadable =>
        return false;
      case NoModelFile =>
        match training
        case NotTrained =>
          return false;
        case FailedAfterAssign(m) =>
          model := Some(m);
          return false;
        case Trained(m) =>
          model := Some(m);
          return true;
    }

    /**
     * `predict_aqi`: refuses before looking at the input when no model is
     * loaded, then names the first missing feature, converts the features in
     * order, runs the model and clamps its output to [0, 500] before
     * rounding and categorising it.
     */
    method Predict(data: map<string, Value>) returns (r: Result<AqiResult, PredictError>)
      ensures model.None? ==> r == Failure(NotInitialized)
      ensures model.Some? && !AllPresent(data) ==>
        r.Failure? && r.error.MissingRequiredFeature? && IsFirstMissing(data, r.error.feature)
      ensures model.Some? && AllPresent(data) && FeatureVector(data, RequiredFeatures).Failure? ==>
        r == Failure(NotNumeric(FeatureVector(data, RequiredFeatures).error))
      ensures r.Success? ==>
        && model.Some? && AllPresent(data) && FeatureVector(data, RequiredFeatures).Success?
        && var clamped := Clamp(model.value.regress(model.value.scale(FeatureVector(data, RequiredFeatures).value)));
        && r.value.predictedAqi == RoundTwoDecimals(clamped)
        && r.value.aqiCategory == Name(GetAqiCategory(clamped))
        && r.value.aqiRounded == RoundHalfEven(clamped)
        && r.value.inputValues == data
        && r.value.confidence.None?
        && r.value.modelType == ModelType
      ensures r.Success? ==>
        && 0.0 <= r.value.predictedAqi <= 500.0
        && 0 <= r.value.aqiRounded <= 500
      ensures r == Failure(NotInitialized) ==> model.None?
      ensures model.Some? && AllPresent(data) && FeatureVector(data, RequiredFeatures).Success? ==> r.Success?
    {
      if model.None? {
        return Failure(NotInitialized);
      }
      var missing := FirstMissing(data);
      if missing.Some? {
        return Failure(MissingRequiredFeature(missing.value));
      }
      match FeatureVector(data, RequiredFeatures)
      case Failure(f) =>
        r := Failure(NotNumeric(f));
      case Success(features) =>
        var m := model.value;
        var aqiValue := Clamp(m.regress(m.scale(features)));
        var category := GetAqiCategory(aqiValue);
        RoundTwoDecimalsWithin(aqiValue);
        RoundAtLeast(aqiValue, 0);
        RoundAtMost(aqiValue, 500);
        r := Success(AqiResult(RoundTwoDecimals(aqiValue), Name(category), RoundHalfEven(aqiValue), data, None, ModelType));
    }
  }

  /** Rounding a value of [0, 500] to two decimals stays within [0, 500]. */
  lemma RoundTwoDecimalsWithin(x: real)
    requires 0.0 <= x <= 500.0
    ensures 0.0 <= RoundTwoDecimals(x) <= 500.0
  {
    RoundAtLeast(x * 100.0, 0);
    RoundAtMost(x * 100.0, 50000);
  }
}
