/**
 * The pollution sample both AQI entry points receive: a JSON object read as
 * a map from field name to value, and the eight features it must carry.
 */
module PollutionData {
  import opened Wrappers

  /**
   * A JSON field value. Num(x) is any value Python's float() accepts (a
   * number, a numeric string, a boolean), x being what float() gives;
   * NonNumeric(text) is a value float() rejects with ValueError or TypeError
   * (a word, null, a list), text being how Python prints it. An integer too
   * large for a float, which float() rejects with OverflowError, is neither.
   */
  datatype Value = Num(x: real) | NonNumeric(text: string)

  /** The eight features, in the order every check visits them. */
  const RequiredFeatures: seq<string> := ["co", "no", "no2", "o3", "so2", "pm2_5", "pm10", "nh3"]

  /** Position of a feature in RequiredFeatures (8 for any other name). */
  function Position(feature: string): (i: nat)
    ensures i <= |RequiredFeatures|
    ensures i < |RequiredFeatures| <==> feature in RequiredFeatures
    ensures i < |RequiredFeatures| ==> RequiredFeatures[i] == feature
  {
    if feature == "co" then 0
    else if feature == "no" then 1
    else if feature == "no2" then 2
    else if feature == "o3" then 3
    else if feature == "so2" then 4
    else if feature == "pm2_5" then 5
    else if feature == "pm10" then 6
    else if feature == "nh3" then 7
    else 8
  }

  /** The eight names are distinct: each sits at its own position. */
  lemma PositionOfRequired(i: nat)
    requires i < |RequiredFeatures|
    ensures Position(RequiredFeatures[i]) == i
  {
  }

  predicate AllPresent<V>(data: map<string, V>)
  {
    forall i :: 0 <= i < |RequiredFeatures| ==> RequiredFeatures[i] in data
  }

  /** feature is the first required feature, in RequiredFeatures order, missing from data. */
  predicate IsFirstMissing<V>(data: map<string, V>, feature: string)
  {
    && feature in RequiredFeatures
    && feature !in data
    && forall j :: 0 <= j < Position(feature) ==> RequiredFeatures[j] in data
  }

  /**
   * The loop over the required features with an early exit at the first one
   * absent from data (`predict_aqi` raises, the combined app answers 400).
   */
  method FirstMissing<V>(data: map<string, V>) returns (missing: Option<string>)
    ensures missing.None? <==> AllPresent(data)
    ensures missing.Some? ==> IsFirstMissing(data, missing.value)
  {
    var i := 0;
    while i < |RequiredFeatures|
      invariant 0 <= i <= |RequiredFeatures|
      invariant forall j :: 0 <= j < i ==> RequiredFeatures[j] in data
    {
      var feature := RequiredFeatures[i];
      if feature !in data {
        PositionOfRequired(i);
        return Some(feature);
      }
      i := i + 1;
    }
    return None;
  }
}
