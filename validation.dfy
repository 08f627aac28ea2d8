/**
 * `validate_pollution_data`: every required feature is checked, and every
 * problem found is reported, in feature order, in one list.
 */
module PollutionValidation {
  import opened Wrappers
  import opened PollutionData

  /** One entry of the error list; the message text each stands for is given by Message. */
  datatype ValidationError =
    | MissingFeature(feature: string)
    | NegativeValue(feature: string, value: real)
    | ValueTooHigh(feature: string, value: real)
    | InvalidNumber(feature: string, text: string)

  /**
   * The message of an error; show stands for Python's rendering of a float.
   * Every message but the one about a too-high CO value names the feature as
   * the validator got it.
   */
  function Message(e: ValidationError, show: real -> string): (r: string)
    ensures e.MissingFeature? ==> r == "Missing feature: " + e.feature
    ensures e.NegativeValue? ==> "Negative value for " + e.feature + ": " <= r
    ensures e.InvalidNumber? ==> "Invalid numeric value for " + e.feature + ": " <= r
    ensures e.ValueTooHigh? ==>
      (if e.feature == "co" then "CO value seems too high: " else e.feature + " value seems too high: ") <= r
  {
    match e
    case MissingFeature(f) => "Missing feature: " + f
    case NegativeValue(f, v) => "Negative value for " + f + ": " + show(v)
    case ValueTooHigh(f, v) =>
      if f == "co" then "CO value seems too high: " + show(v)
      else f + " value seems too high: " + show(v)
    case InvalidNumber(f, t) => "Invalid numeric value for " + f + ": " + t
  }

  /**
   * For the eight features the validator checks, the opening words of a
   * message tell which kind of error it reports.
   */
  lemma MessageTellsKind(e: ValidationError, show: real -> string)
    requires e.feature in RequiredFeatures
    ensures var r := Message(e, show);
      && (e.MissingFeature? <==> "Missing feature: " <= r)
      && (e.NegativeValue? <==> "Negative value for " <= r)
      && (e.InvalidNumber? <==> "Invalid numeric value for " <= r)
      && (e.ValueTooHigh? <==> !("Missing feature: " <= r || "Negative value for " <= r || "Invalid numeric value for " <= r))
  {
    var r := Message(e, show);
    match e
    case MissingFeature(f) =>
      Opening("Missing feature: ", f, r);
    case NegativeValue(f, _) =>
      Opening("Negative value for ", f + ": ", r);
    case ValueTooHigh(f, _) =>
      if f == "co" {
        Opening("CO value seems too high: ", "", r);
      } else {
        Opening(f, " value seems too high: ", r);
        assert f[0] != 'M' && f[0] != 'N' && f[0] != 'I';
      }
    case InvalidNumber(f, _) =>
      Opening("Invalid numeric value for ", f + ": ", r);
  }

  /** A message opening with a + b opens with a, and with a's first letter. */
  lemma Opening(a: string, b: string, r: string)
    requires a != [] && a + b <= r
    ensures a <= r && r[0] == a[0]
    ensures "Missing feature: " <= r ==> r[0] == 'M'
    ensures "Negative value for " <= r ==> r[0] == 'N'
    ensures "Invalid numeric value for " <= r ==> r[0] == 'I'
  {
    assert (a + b)[..|a|] == a;
  }

  /** The plausibility ceiling of a feature, when it has one. */
  function Ceiling(feature: string): Option<real>
  {
    if feature == "co" then Some(10000.0)
    else if feature == "pm2_5" || feature == "pm10" then Some(1000.0)
    else None
  }

  /** The feature is present, numeric, not negative and under its ceiling. */
  predicate Acceptable(data: map<string, Value>, feature: string)
  {
    && feature in data
    && data[feature].Num?
    && 0.0 <= data[feature].x
    && (Ceiling(feature).Some? ==> data[feature].x <= Ceiling(feature).value)
  }

  /** A sample the validator lets through. */
  predicate IsValidSample(data: map<string, Value>)
  {
    forall i :: 0 <= i < |RequiredFeatures| ==> Acceptable(data, RequiredFeatures[i])
  }

  /**
   * What one pass of the loop appends for one feature: nothing for an
   * acceptable value, and otherwise the one error that says what is wrong.
   */
  function FeatureErrors(data: map<string, Value>, feature: string): (es: seq<ValidationError>)
    ensures |es| <= 1
    ensures es == [] <==> Acceptable(data, feature)
    ensures forall k :: 0 <= k < |es| ==> es[k].feature == feature
    ensures feature !in data ==> es == [MissingFeature(feature)]
    ensures feature in data && data[feature].NonNumeric? ==> es == [InvalidNumber(feature, data[feature].text)]
    ensures feature in data && data[feature].Num? && data[feature].x < 0.0 ==>
      es == [NegativeValue(feature, data[feature].x)]
    ensures feature in data && data[feature].Num? && Ceiling(feature).Some? && data[feature].x > Ceiling(feature).value ==>
      es == [ValueTooHigh(feature, data[feature].x)]
  {
    if feature !in data then [MissingFeature(feature)]
    else match data[feature]
      case NonNumeric(text) => [InvalidNumber(feature, text)]
      case Num(value) =>
        (if value < 0.0 then [NegativeValue(feature, value)] else [])
        + (if feature == "co" && value > 10000.0 then [ValueTooHigh(feature, value)]
           else if feature in ["pm2_5", "pm10"] && value > 1000.0 then [ValueTooHigh(feature, value)]
           else [])
  }

  /** The error list after the loop has visited the features fs. */
  function ErrorsFor(data: map<string, Value>, fs: seq<string>): seq<ValidationError>
  {
    if fs == [] then [] else ErrorsFor(data, fs[..|fs| - 1]) + FeatureErrors(data, fs[|fs| - 1])
  }

  /** `validate_pollution_data` */
  method ValidatePollutionData(data: map<string, Value>) returns (errors: seq<ValidationError>)
    ensures errors == ErrorsFor(data, RequiredFeatures)
    ensures errors == [] <==> IsValidSample(data)
    ensures |errors| <= |RequiredFeatures|
  {
    errors := [];
    var i := 0;
    while i < |RequiredFeatures|
      invariant 0 <= i <= |RequiredFeatures|
      invariant errors == ErrorsFor(data, RequiredFeatures[..i])
    {
      var feature := RequiredFeatures[i];
      if feature !in data {
        errors := errors + [MissingFeature(feature)];
      } else {
        match data[feature]
        case NonNumeric(text) =>
          errors := errors + [InvalidNumber(feature, text)];
        case Num(value) =>
          if value < 0.0 {
            errors := errors + [NegativeValue(feature, value)];
          }
          if feature == "co" && value > 10000.0 {
            errors := errors + [ValueTooHigh(feature, value)];
          } else if feature in ["pm2_5", "pm10"] && value > 1000.0 {
            errors := errors + [ValueTooHigh(feature, value)];
          }
      }
      assert RequiredFeatures[..i + 1][..i] == RequiredFeatures[..i];
      i := i + 1;
    }
    assert RequiredFeatures[..i] == RequiredFeatures;
    ErrorsForCount(data, RequiredFeatures);
  }

  /** After the features fs: at most one error each, and none iff all of them are acceptable. */
  lemma {:induction false} ErrorsForCount(data: map<string, Value>, fs: seq<string>)
    ensures var errors := ErrorsFor(data, fs);
      && |errors| <= |fs|
      && (errors == [] <==> forall i :: 0 <= i < |fs| ==> Acceptable(data, fs[i]))
  {
    if fs != [] {
      var init := fs[..|fs| - 1];
      ErrorsForCount(data, init);
      var before := ErrorsFor(data, init);
      var last := FeatureErrors(data, fs[|fs| - 1]);
      assert ErrorsFor(data, fs) == before + last;
      assert |before + last| == |before| + |last|;
      assert last == [] <==> Acceptable(data, fs[|fs| - 1]);
      if before + last == [] {
        forall i | 0 <= i < |fs|
          ensures Acceptable(data, fs[i])
        {
          if i < |fs| - 1 {
            assert before == [] && init[i] == fs[i];
          }
        }
      } else if before != [] {
        var i :| 0 <= i < |init| && !Acceptable(data, init[i]);
        assert fs[i] == init[i];
      }
    }
  }

  /** Every error is about one of the first n features, and their positions strictly increase. */
  predicate InFeatureOrder(errors: seq<ValidationError>, n: nat)
  {
    && (forall k :: 0 <= k < |errors| ==> Position(errors[k].feature) < n)
    && (forall k1, k2 :: 0 <= k1 < k2 < |errors| ==> Position(errors[k1].feature) < Position(errors[k2].feature))
  }

  /** After the first n features, the errors' features strictly follow the feature order. */
  lemma {:induction false} ErrorsForOrder(data: map<string, Value>, n: nat)
    requires n <= |RequiredFeatures|
    ensures InFeatureOrder(ErrorsFor(data, RequiredFeatures[..n]), n)
  {
    if n > 0 {
      var fs := RequiredFeatures[..n];
      assert fs[..n - 1] == RequiredFeatures[..n - 1];
      var before := ErrorsFor(data, RequiredFeatures[..n - 1]);
      var last := FeatureErrors(data, RequiredFeatures[n - 1]);
      ErrorsForOrder(data, n - 1);
      assert InFeatureOrder(before, n - 1);
      PositionOfRequired(n - 1);
      var errors := before + last;
      assert ErrorsFor(data, fs) == errors;
      forall k | 0 <= k < |errors|
        ensures Position(errors[k].feature) < n
        ensures k < |before| ==> Position(errors[k].feature) < n - 1
        ensures k >= |before| ==> Position(errors[k].feature) == n - 1
      {
        if k >= |before| {
          assert errors[k] == last[k - |before|];
        } else {
          assert errors[k] == before[k];
        }
      }
    }
  }

  /** The errors of the whole sample, in feature order, at most one per feature. */
  lemma ErrorsInFeatureOrder(data: map<string, Value>)
    ensures var errors := ErrorsFor(data, RequiredFeatures);
      && |errors| <= |RequiredFeatures|
      && (forall k :: 0 <= k < |errors| ==> errors[k].feature in RequiredFeatures)
      && (forall k1, k2 :: 0 <= k1 < k2 < |errors| ==> Position(errors[k1].feature) < Position(errors[k2].feature))
  {
    assert RequiredFeatures[..|RequiredFeatures|] == RequiredFeatures;
    ErrorsForCount(data, RequiredFeatures);
    ErrorsForOrder(data, |RequiredFeatures|);
    assert InFeatureOrder(ErrorsFor(data, RequiredFeatures), |RequiredFeatures|);
  }

  /** The validator never stops early: the errors of every feature are all in the list. */
  lemma {:induction false} EveryFeatureReported(data: map<string, Value>, fs: seq<string>, i: nat)
    requires i < |fs|
    ensures forall e :: e in FeatureErrors(data, fs[i]) ==> e in ErrorsFor(data, fs)
  {
    var init := fs[..|fs| - 1];
    if i < |fs| - 1 {
      EveryFeatureReported(data, init, i);
      assert init[i] == fs[i];
    }
  }

  /**
   * A missing feature is always reported as missing, a non-numeric one as
   * invalid, a negative one as negative and one above its ceiling as too
   * high, whatever the other fields hold.
   */
  lemma ProblemsAlwaysReported(data: map<string, Value>, i: nat)
    requires i < |RequiredFeatures|
    ensures var f, errors := RequiredFeatures[i], ErrorsFor(data, RequiredFeatures);
      && (f !in data ==> MissingFeature(f) in errors)
      && (f in data && data[f].NonNumeric? ==> InvalidNumber(f, data[f].text) in errors)
      && (f in data && data[f].Num? && data[f].x < 0.0 ==> NegativeValue(f, data[f].x) in errors)
      && (f in data && data[f].Num? && Ceiling(f).Some? && data[f].x > Ceiling(f).value ==> ValueTooHigh(f, data[f].x) in errors)
  {
    EveryFeatureReported(data, RequiredFeatures, i);
  }
}
