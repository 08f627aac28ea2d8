# Sky-photo classifier and AQI estimator: verified model of the core logic

The system serves two pretrained models behind an HTTP API. One is an image classifier for sky photos; the other is a regressor that estimates the air-quality index (AQI) from eight pollutant readings. This Dafny project models the service's own logic around those models and proves what that logic promises:

- **Image preprocessing** (`ImagePreprocessor` in `app_combined.py`). It corrects the picture's orientation from its EXIF orientation tag (0x0112 of TIFF 6.0 / EXIF). It then resizes the picture so the shorter side matches the model input size S, keeping the aspect ratio, and rounds the other side with Python's round-half-to-even. Next it takes a centre crop of S×S computed with floor division. Finally it can swap RGB to BGR.
  - The orientation correction is proved against an independent reading of the tag table: which visual side holds the stored 0th row and which holds the 0th column.
  - For a positive input size S, every picture with two positive sides is proved to come out S×S, with the crop box inside the resized picture.
- **The vision predictor and the image route** (`app_combined.py`). The label file is parsed as the stripped `splitlines()` of its text. The predictor is loaded with exactly one input and one output tensor. `predict` takes the single output row. The route's prediction list is built with `zip` over labels and outputs.
- **The combined app's AQI route** (`predict_aqi_api`). It answers 500 without a model and 400 naming the first missing metric. Otherwise it returns `int()` of the prediction, or 500 when the prediction raises.
- **AQI category, validation, prediction and the training label formula** (`app/predict_aqi.py`):
  - `AQI_CATEGORIES` / `get_aqi_category`: six closed bands scanned in order. The gaps between bands and negative values give `UNKNOWN`.
  - `validate_pollution_data`: a validator that never stops early and reports every problem in feature order.
  - `predict_aqi`: the model-initialised check, the required-key check, the float conversion, the clamp to [0, 500], and the two roundings.
  - `initialize_aqi_model`: loads the stored model, falling back to training, as state held by a class.
  - The nested `estimate_realistic_aqi` formula.

Modules:

| module | file | contents |
|---|---|---|
| `Wrappers` | `wrappers.dfy` | `Option`, `Result` |
| `Rounding` | `rounding.dfy` | Python's `round(x)`, `round(x, 2)` and `int(x)` on exact reals |
| `Text` | `text.dfy` | `str.strip()` and `str.splitlines()` |
| `Images` | `images.dfy` | pixel grid and PIL's transposes, flips, resize, crop; channel reversal |
| `ImagePreprocessing` | `preprocessing.dfy` | `ImagePreprocessor` |
| `PollutionData` | `pollution_data.dfy` | JSON values, the eight required features, the first-missing-feature loop |
| `PollutionValidation` | `validation.dfy` | `validate_pollution_data` |
| `AqiCategories` | `categories.dfy` | `AQI_CATEGORIES`, `get_aqi_category` |
| `AqiPrediction` | `aqi_prediction.dfy` | `initialize_aqi_model`, `predict_aqi` |
| `AqiTraining` | `aqi_training.dfy` | `estimate_realistic_aqi` |
| `CombinedApp` | `combined_app.dfy` | `VisionPredictor`, the prediction list, `predict_aqi_api` |

Three behaviours of the code worth knowing, all modelled as written:

- **Label/output length mismatch.** The prediction list pairs labels and outputs with `zip` (`app_combined.py:715`). When the two lists differ in length the extra entries are dropped without an error. `CombinedApp.Predictions` does the same.
- **AQI route validation.** The combined app's AQI route (`app_combined.py:742-745`) stops at the first missing metric and names only that one; it does not return a list of every problem. `CombinedApp.PredictAqiRoute` models this.
- **Orientation tags outside 1 to 8.** The orientation arithmetic acts on every integer: every tag ≥ 9 transposes, and tags 0 and below leave the picture as it is. `ImagePreprocessing.OrientationTransforms` states this for every integer tag.

## Model

| member | source | states |
|---|---|---|
| ImagePreprocessing.OrientationTransforms | app_combined.py:96-102 | with k = tag - 1: transpose iff tag ≥ 5, flip top-bottom iff tag ∈ {3,4,7,8}, flip left-right iff tag ∈ {2,3,6,7}; at most three transforms, always in the order transpose, flip top-bottom, flip left-right; no tag or tag 1 gives no transform |
| ImagePreprocessing.UpdateOrientation | app_combined.py:90-103 | only the transpose changes the size: tags ≥ 5 give (height, width), every other tag keeps (width, height); no EXIF data, no orientation entry, or a tag ≤ 1 leave the picture unchanged |
| ImagePreprocessing.OrientationSwaps | app_combined.py:96-102 | a tag's transform list holds an odd number of transposes iff the tag is ≥ 5 |
| ImagePreprocessing.ApplyAllSize | app_combined.py:96-102 | a chain of transposes and flips swaps width and height iff it holds an odd number of transposes |
| ImagePreprocessing.OrientationIsUpright | app_combined.py:96-102 | for each of the eight standard tags the corrected picture equals the upright picture read off the tag's meaning (0th row and 0th column sides), pixel by pixel |
| ImagePreprocessing.CenterOffset | app_combined.py:118-119 | the offset is (size - S) // 2; an odd difference leaves the extra pixel after the box; when S ≤ size the box lies inside the side |
| ImagePreprocessing.Preprocessor.ResizeKeepAspectRatio | app_combined.py:105-114 | fails with ZeroDivision (Python's ZeroDivisionError) iff a side is 0, and otherwise with EmptyResize (PIL's ValueError) iff S is 0; on success the shorter side becomes S (the height for a square), the other side is round-half-even of S·longer/shorter, both sides are ≥ S, and every pixel is the kernel's value |
| ImagePreprocessing.Preprocessor.TargetSize | app_combined.py:107-113 | the new size: S for the shorter side (the height for a square) and round-half-even of S·longer/shorter for the other, both ≥ S |
| ImagePreprocessing.PilResize | app_combined.py:114 | PIL's `resize` fails (ValueError) iff a target side is 0, and otherwise is the resampled picture |
| ImagePreprocessing.LongerSide | app_combined.py:107-113 | S / (shorter/longer) and S · (longer/shorter) are the same exact length, and it is ≥ S |
| ImagePreprocessing.Preprocessor.CropCenter | app_combined.py:116-122 | the result is S×S and its pixel (x, y) is the input's pixel at (left + x, top + y) with the centre offsets |
| ImagePreprocessing.Preprocessor.Preprocess | app_combined.py:79-88 | fails with ZeroDivision iff the picture has a zero side, with EmptyResize iff the sides are positive and S is 0; otherwise the output is a valid S×S picture |
| ImagePreprocessing.PreprocessFitsModelInput | app_combined.py:79-122 | for S > 0 and every picture with two positive sides, the crop box lies inside the resized picture, and every output pixel is the resized pixel under it, channel-reversed exactly when isBgr |
| ImagePreprocessing.BgrIsReversedRgb | app_combined.py:84-88 | for S > 0 and a picture with two positive sides, the BGR output is the RGB output with channels reversed, and reversing it again gives the RGB output |
| Images.Transpose | app_combined.py:98 | PIL TRANSPOSE: width and height swap, pixel (x, y) comes from (y, x) |
| Images.FlipTopBottom | app_combined.py:100 | PIL FLIP_TOP_BOTTOM: same size, pixel (x, y) comes from (x, h-1-y) |
| Images.FlipLeftRight | app_combined.py:102 | PIL FLIP_LEFT_RIGHT: same size, pixel (x, y) comes from (w-1-x, y) |
| Images.TransposeTwice | app_combined.py:98 | transposing twice is the identity on a valid picture |
| Images.FlipTopBottomTwice | app_combined.py:100 | the top-bottom flip undoes itself |
| Images.FlipLeftRightTwice | app_combined.py:102 | the left-right flip undoes itself |
| Images.Resize | app_combined.py:114 | for two positive target sides (PIL raises otherwise), the result has the requested size and each pixel is the interpolation kernel's value |
| Images.Crop | app_combined.py:122 | the result has the box's size; pixel (x, y) is the source pixel at (left + x, top + y), black outside the source |
| Images.ReverseChannels | app_combined.py:86-87 | same size, every pixel channel-reversed |
| Images.ReverseChannelsTwice | app_combined.py:86-87 | reversing the channels twice is the identity |
| Text.StripStart | app_combined.py:56 | a suffix of the input whose dropped prefix is all white space and which does not start with white space |
| Text.StripEnd | app_combined.py:56 | a prefix of the input whose dropped suffix is all white space and which does not end with white space |
| Text.Strip | app_combined.py:56 | `strip()` is no longer than its input and has no white space at either end |
| Text.StripIsTrimmedInfix | app_combined.py:56 | `strip()` keeps the contiguous piece that starts after the leading white space and drops only white space on both sides of it |
| Text.StripFixesTrimmed | app_combined.py:56 | a string without white space at its ends is its own strip |
| Text.StripIdempotent | app_combined.py:56 | strip applied twice equals strip applied once |
| Text.SplitLines | app_combined.py:56 | no line produced by `splitlines()` contains a line boundary, and there are no lines iff the text is empty |
| Text.SplitAtBreak | app_combined.py:56 | a line followed by any single boundary character (other than "\r" before "\n") and more text splits into that line and the lines of the rest |
| Text.SplitAtCrLf | app_combined.py:56 | "\r\n" ends a line as one boundary: the line followed by the lines of the rest, with no empty line between |
| Text.SplitLastLine | app_combined.py:56 | a non-empty last line without a boundary after it is kept as a line |
| Text.SplitJoinLines | app_combined.py:56 | splitting a text written as lines each ended by "\n" gives those lines back |
| CombinedApp.ParseLabels | app_combined.py:56 | one label per line of the file, label i being line i stripped; each label has no line boundary and no white space at either end |
| CombinedApp.ParseLabelsRoundTrip | app_combined.py:56 | a label file written one clean label per line parses back to exactly those labels |
| CombinedApp.VisionPredictor.constructor | app_combined.py:50-56 | the tensor indices are the single input's and output's; the preprocessor's size is the input shape's entry 1, with isBgr false; the labels are the parsed label file |
| CombinedApp.LoadVisionPredictor | app_combined.py:46-56 | fails unless there is exactly one input tensor and exactly one output tensor (input checked first) and the input shape has an entry 1; loads iff all of these hold, and then the predictor is new and holds the two tensor indices, the input size and the parsed labels |
| CombinedApp.VisionPredictor.Predict | app_combined.py:63-72 | a picture with a zero side fails in preprocessing (ZeroDivision), and, when S is 0, so does every picture with two positive sides (EmptyResize); otherwise the engine receives an S×S picture, a single output row is returned, and any other row count fails |
| CombinedApp.Predictions | app_combined.py:708-716 | min(#labels, #outputs) entries; entry i pairs label i with output i, with tagId "" and no bounding box |
| CombinedApp.PredictAqiRoute | app_combined.py:732-770 | ModelUnavailable iff no model; with a model, 400 iff a metric is missing, naming the first missing one in feature order; with all metrics, PredictionFailed iff the model call raises, and otherwise the model's output truncated by `int()`, with the data echoed; status 500 iff no model or a failed prediction, 400 iff a metric is missing |
| PollutionData.FirstMissing | app_combined.py:742-745 | returns nothing iff all eight features are present, and otherwise the first absent one in the order co, no, no2, o3, so2, pm2_5, pm10, nh3 (the same loop as app/predict_aqi.py:169-171) |
| PollutionData.PositionOfRequired | app/predict_aqi.py:167 | the eight required names are distinct: each one's position in the list is its index |
| Rounding.RoundHalfEven | app/predict_aqi.py:192 | `round(x)`: within 0.5 of x, and the even one of the two candidates on a tie |
| Rounding.RoundAtLeast | app/predict_aqi.py:192 | rounding a value ≥ an integer n gives ≥ n |
| Rounding.RoundAtMost | app/predict_aqi.py:192 | rounding a value ≤ an integer n gives ≤ n |
| Rounding.RoundTwoDecimals | app/predict_aqi.py:190 | `round(x, 2)`: within 0.005 of x, a whole number of hundredths, and on a tie the even number of hundredths |
| Rounding.TruncateToInt | app_combined.py:761 | `int(x)`: truncation toward zero, for positive and for negative x |
| AqiCategories.GetAqiCategory | app/predict_aqi.py:26-31 | UNKNOWN iff no band of the table holds x; otherwise the category of the band holding x |
| AqiCategories.NamesDistinct | app/predict_aqi.py:17-24 | the category names returned to clients are pairwise different, so a name identifies its category |
| AqiCategories.CategoryTable | app/predict_aqi.py:17-31 | GOOD iff 0 ≤ x ≤ 50, MODERATE iff 51 ≤ x ≤ 100, …, SEVERE iff x ≥ 301; UNKNOWN iff x < 0 or x lies in one of the gaps (50, 51), (100, 101), (150, 151), (200, 201), (300, 301) |
| AqiCategories.BandsPairwiseDisjoint | app/predict_aqi.py:17-24 | no two bands of the table overlap |
| AqiCategories.FirstMatchIsTheMatch | app/predict_aqi.py:28-30 | in a table without overlaps the first-match scan returns the category of the band holding x |
| AqiCategories.FirstMatchNone | app/predict_aqi.py:28-31 | when no band holds x the scan returns UNKNOWN |
| AqiCategories.ScanOrderIrrelevant | app/predict_aqi.py:17-31 | scanning any permutation of the table gives the same category as the table's own order |
| AqiTraining.Saturate | app/predict_aqi.py:62-65 | `min(300, max(0, x))` lies in [0, 300], is x inside that range, 0 below it and 300 above it |
| AqiTraining.SaturateMonotone | app/predict_aqi.py:62-65 | saturation is monotone |
| AqiTraining.EstimateRealisticAqi | app/predict_aqi.py:55-68 | the estimate lies in [0, 300] and is at least each of its four terms and equal to one of them; it is 300 iff a pollutant reaches its saturation point (pm2_5 ≥ 150, pm10 ≥ 200, no2 ≥ 150 or o3 ≥ 250); it is 0 iff no pollutant is positive |
| AqiTraining.EstimateMonotone | app/predict_aqi.py:55-68 | more of any pollutant never lowers the estimate |
| AqiPrediction.Clamp | app/predict_aqi.py:184 | `max(0, min(500, x))` lies in [0, 500], is x inside that range, 0 below it and 500 above it |
| AqiPrediction.FeatureVector | app/predict_aqi.py:174 | succeeds iff every feature is numeric, giving their values in feature order; otherwise names the first feature float() rejects |
| AqiPrediction.RoundTwoDecimalsWithin | app/predict_aqi.py:184-190 | a clamped value rounded to two decimals stays in [0, 500] |
| AqiPrediction.AqiService.constructor | app/predict_aqi.py:12-13 | no model is loaded at start |
| AqiPrediction.AqiService.Initialize | app/predict_aqi.py:127-154 | succeeds iff the stored model loads, or there is no stored model and training runs to the end; the loaded model, or the regressor training assigned (also when training failed after assigning it), is then the held one; an unreadable model file, or a training run that fails before assigning a regressor, leaves the state unchanged |
| AqiPrediction.AqiService.Predict | app/predict_aqi.py:156-203 | NotInitialized iff no model, before the input is inspected; then the first missing feature; then the first non-numeric feature; on success predicted_aqi = round(clamped, 2), the category of the clamped value, aqi_rounded = round(clamped), the input echoed, no confidence, the fixed model type; both numbers lie in [0, 500]; with a model, all eight features and all of them numeric, the prediction succeeds |
| PollutionValidation.FeatureErrors | app/predict_aqi.py:211-224 | one feature contributes at most one error, all about that feature, and none iff it is present, numeric, not negative and under its ceiling; a missing feature gives MissingFeature, a non-numeric one InvalidNumber with its text, a negative one NegativeValue with its value, and one above its ceiling (co 10000, pm2_5 and pm10 1000) ValueTooHigh with its value |
| PollutionValidation.Message | app/predict_aqi.py:212-224 | "Missing feature: " followed by the feature's name; a negative value's message opens with "Negative value for <name>: ", an unreadable one's with "Invalid numeric value for <name>: ", and a too-high one's with "CO value seems too high: " for co and "<name> value seems too high: " otherwise |
| PollutionValidation.MessageTellsKind | app/predict_aqi.py:212-224 | for each of the eight features the opening words tell the kind of error: "Missing feature: ", "Negative value for ", "Invalid numeric value for ", and none of these for a too-high value |
| PollutionValidation.ValidatePollutionData | app/predict_aqi.py:205-226 | the loop's list equals the feature-by-feature specification; it is empty iff every feature is present, numeric, ≥ 0, co ≤ 10000 and pm2_5, pm10 ≤ 1000; it has at most 8 errors |
| PollutionValidation.ErrorsForCount | app/predict_aqi.py:210-224 | after visiting any list of features there are at most as many errors as features, and none iff every one of them is acceptable |
| PollutionValidation.ErrorsForOrder | app/predict_aqi.py:210-224 | after n features, each error is about one of them and the errors' features strictly follow the feature order |
| PollutionValidation.ErrorsInFeatureOrder | app/predict_aqi.py:205-226 | the errors are about required features, one at most per feature, in feature order |
| PollutionValidation.EveryFeatureReported | app/predict_aqi.py:210-224 | the validator never stops early: every feature's errors are in the list |
| PollutionValidation.ProblemsAlwaysReported | app/predict_aqi.py:210-224 | a missing feature is always reported as missing, a non-numeric one as invalid, a negative one as negative and one above its ceiling as too high, whatever the other fields hold |

## Left out

- HTTP plumbing is not modelled: Flask routing, CORS, request parsing, the 4 MB limit, JSON envelopes, the `id`/`project`/`iteration`/`created` fields and the timestamp of the image route. `app/app.py` and `test_api.py` are not part of this model.
- The image route's catch-all 500 answer is not modelled: undecodable bytes, and any exception raised inside the predictor, end up there. Its "model not available" check is not modelled either.
- The inference engine is a parameter. `infer` in `CombinedApp.VisionPredictor.Predict` stands for setting the input tensor, invoking the interpreter and reading the output tensor. Tensor allocation and model file loading are not modelled.
- PIL is modelled only where it acts on geometry:
  - decoding and EXIF parsing are left out; the orientation arrives as `Option<int>`;
  - bilinear interpolation is left out; `Resize` takes a kernel parameter;
  - conversion to RGB and the float32 array are left out.
- Images.Crop pads with black outside the picture, which is PIL's behaviour for a box that reaches outside the image. For preprocessing this never happens: `PreprocessFitsModelInput` proves that the box lies inside the picture.
- The model uses exact reals in place of IEEE doubles:
  - `width / height` and the scaled side are exact;
  - NaN and infinities that `float()` can produce are not represented;
  - a float that lands on a tie through representation error may round differently in Python.
- CombinedApp.Predictions: does not model `round(p, 8)` on each probability; the probability is kept as the engine returns it, because the rounding is float formatting.
- CombinedApp.PredictAqiRoute:
  - the confidence value (from `predict_proba`, or the fallback 0.85) is not modelled, because it comes from the external model;
  - a non-object JSON body and the conversion to a data frame are not modelled; `predict` stands for the model applied to the request's frame, `None` for an exception it raises.
- The model-loading start-up code of the combined app (`initialize_models`) is not modelled. Whether a model is present is an `Option` parameter of the route.
- `AqiPrediction.AqiModel` makes the fitted scaler and random forest uninterpreted functions. Training, the train/test split, scoring and pickling (`train_simple_model` apart from its labelling formula) are left out; `AqiService.Initialize` takes their outcome as `StoredModel` and `TrainingOutcome`.
- A loaded model always comes with its scaler. The source's state with a model but no scaler is not represented.
- Logging is not modelled, and neither is the re-raise of the exception after logging in `predict_aqi`.
- PollutionValidation.Message: renders numbers through a `show` parameter, because Python's float formatting is not modelled; the text after the opening words is therefore left free.
- PollutionValidation.MessageTellsKind: covers only the eight required features, the only ones the validator reports on (a feature named, say, "Missing feature: x" would blur the openings).
- Python's `float()` acceptance rules are not modelled: which JSON values convert, and what they convert to, is fixed by `PollutionData.Value` (`Num` or `NonNumeric`).
- PollutionValidation.ValidatePollutionData: a JSON integer too large for a float makes `float()` raise OverflowError, which the validator does not catch, so the call raises instead of returning a list. Such values are not represented by `PollutionData.Value`.
- AqiPrediction.AqiService.Initialize: a model file that unpickles but lacks the 'scaler' entry is modelled as `Unreadable`, leaving the state unchanged; the code has already assigned the loaded regressor when the missing key raises, and returns False with it in place.
- AqiPrediction.AqiService.Predict: a regressor left behind by a failed training run may be unfitted; it is used like any other model, and the exception an unfitted regressor raises is not modelled.
