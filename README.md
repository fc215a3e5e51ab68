# Grade predictor: the `/predict` handler

A Dafny model of the prediction endpoint of the student grade predictor
(`backend/app.py`). A POST body carries `currentQuarter`, `section`, `gender`
and up to four quarter grades `q1`..`q4` in percent. The handler:

- normalises each grade to a fraction of 1. A missing or falsy value is skipped, and so is a grade that reads as zero;
- records the entered grades;
- dispatches on `currentQuarter`. The dispatch only opens when every grade up to that quarter is entered;
- for quarters 1-3, builds a one-row feature frame (`create_input_df`: quarter columns plus one-hot section and gender columns and two constant remarks columns). It cuts the frame to the final predictor's feature list, predicts the next quarter, then chains each predicted quarter into the next quarter's predictor;
- for quarter 1-3, takes the final grade from the k-quarter final predictor; for quarter 4 it is the mean of the four grades;
- answers with the percentage, a PASSED / AT RISK status, a fixed confidence (70/85/95/100) and a comparison with the class average.

Files:

- `python_values.dfy`: `Option`/`Result`, the decoded JSON values, Python truthiness, `float()` and `==` against an int, and the abstract `Runtime` (`float(str)` and `round(x, 2)`).
- `features.dfy`: the insertion-ordered dict / one-row DataFrame (`Frame`), `d[k] = v`, `d.update(e)`, column selection, and `create_input_df` as the method `CreateInputDf` proved against `InputColumns`.
- `predictor.dfy`: the pickled artifacts as function-typed fields, the specification of the handler (`ReadRequest`, `PredictionFor`, `Estimate`, `Chain`, `Assemble`, `Handle`), the single steps they are built from (`Entered`, the `if q1:` test on a normalised grade; `NextQuarter`, a next-quarter scaler and regressor; `FinalFrom`, a final scaler and regressor; `Percentile`, the comparison label), and the handler as imperative methods (`ReadInputs`, `CollectQuarters`, `CollectEntered`, `PredictFromQuarter1/2/3`, `Dispatch`, `Respond`, `Predict`). `CollectQuarters` states the dict it builds directly; every other method is proved equal to its specification function.
- `predictor_properties.dfy`: what the handler promises, as lemmas over the specification.

The regressors, scalers, feature lists and `class_avg['final']` are loaded once at start-up. Here they are the fields of an `Artifacts` value passed to every call. Each regressor and scaler is an uninterpreted function.

What the handler does not do, and the model does not add:

- it does not check that a grade lies in 0..100; any number float() accepts is used;
- it does not validate `section` or `gender`: an unknown value encodes as all-zero flags and the request goes on;
- it does not clamp or extrapolate a prediction: each predicted quarter is the regressor's value as it is;
- the confidence is a fixed number per quarter (70/85/95/100), not computed from the data;
- a quarter is not guaranteed to be either entered or predicted: a grade sent for a quarter after the current one is reported as both (`LaterGradeIsAlsoPredicted`), and the two only partition Q1..Q4 when no such grade is sent (`EnteredAndPredictedPartition`).

## Model

| member | source | states |
|---|---|---|
| PyValues.Truthy | backend/app.py:72-81 | the falsy values are exactly null, false, 0, "", [] and {}; every other value is truthy |
| PyValues.ToFloat | backend/app.py:72-75 | float() of a number is that number, of True/False 1.0/0.0, of a string whatever the runtime's string parser gives (None where Python raises ValueError), and of null, a list or a dict fails; a number or bool converts to a nonzero value exactly when it is truthy |
| PyValues.EqualsInt | backend/app.py:99-162 | only a number or a bool can equal an int; True == n exactly when n is 1 and False == n exactly when n is 0; a number equals n exactly when its value is n |
| Features.Assign | backend/app.py:43-48 | `d[k] = v` appends a new key at the end, keeps the key order when the key exists, and the key then maps to v |
| Features.AssignOthers | backend/app.py:43-48 | assigning one key leaves the value of every other key unchanged |
| Features.AssignKeepsDistinct | backend/app.py:43-48 | assignment keeps the dict free of duplicate keys |
| Features.AssignNames | backend/app.py:43-48 | `d[k] = v` keeps every key of d in its position and adds k |
| Features.Update | backend/app.py:50-58 | `d.update(e)` keeps the keys of d in their positions, and its keys are exactly those of d and e |
| Features.UpdateLookup | backend/app.py:50-58 | after `d.update(e)`, the keys of e have e's values and every other key keeps d's value |
| Features.UpdateKeepsDistinct | backend/app.py:50-58 | `d.update(e)` keeps the dict free of duplicate keys |
| Features.UpdateWithNewColumns | backend/app.py:50-58 | updating with distinct keys the dict lacks appends them in order |
| Features.CategoryColumnsAreNew | backend/app.py:50-58 | the seven category keys are distinct and never collide with a quarter column |
| Features.CreateInputDf | backend/app.py:40-59 | the frame built key by key and then updated is the quarter columns for the keys given, followed by the seven category columns |
| Features.InputColumnsDistinct | backend/app.py:40-59 | the frame has no column twice |
| Features.QuarterColumnsInInput | backend/app.py:43-48 | the column for quarter i is present exactly when key q(i+1) is given, with that key's value |
| Features.QuarterColumnsOfFirstKeys | backend/app.py:43-48 | with keys q1..qn given, the frame starts with the first n quarter columns in order |
| Features.InputIgnoresOtherKeys | backend/app.py:43-48 | only q1..q3 reach the frame; `q4` and any other key are ignored |
| Features.CategoryColumnInInput | backend/app.py:50-58 | each category column is found with its own value; no quarter column shadows it |
| Features.CategoryColumnsInInput | backend/app.py:51-57 | each section/gender flag is 1 exactly when the value is that string; remarks_FAILED is 0 and remarks_PASSED is 1 |
| Features.SectionIsOneHot | backend/app.py:51-53 | exactly one section flag is set for BANABA/CABALLERO/GEMELINA and none for any other value, with no error |
| Features.GenderIsOneHot | backend/app.py:54-55 | exactly one gender flag is set for FEMALE/MALE and none otherwise |
| Features.SelectColumns | backend/app.py:102 | `df[cols]` succeeds exactly when every column exists; the result has exactly those columns in that order, with the frame's values |
| Features.Lookup | backend/app.py:102 | a lookup finds a value exactly when the name is a column of the frame |
| GradePredictor.ReadGrade | backend/app.py:72-75 | a grade is skipped exactly when its key is missing or its value falsy; it fails with that key's error exactly when the value is truthy and float() rejects it; a grade read is float() of the value divided by 100 |
| GradePredictor.ReadInputs | backend/app.py:64-75 | reads the three fields and the four grades in source order, with the first KeyError or float() failure as the error; equals `ReadRequest` |
| GradePredictor.ReadRequest | backend/app.py:64-75 | a successful read yields the four grade slots |
| GradePredictor.CollectQuarters | backend/app.py:77-81 | `quarters` has key q(i+1) exactly when grade i is entered, with its normalised value, and no other key |
| GradePredictor.CollectEntered | backend/app.py:92-96 | `enteredGrades` built key by key equals the specification `EnteredGrades` |
| GradePredictor.QuarterNumber | backend/app.py:99-162 | the k in 1..4 that currentQuarter equals (`current_quarter == k`), and None when it equals none of them |
| GradePredictor.GateOpen | backend/app.py:99-162 | the quarter gate opens exactly when currentQuarter equals some k in 1..4 and grades 1..k are all entered |
| GradePredictor.DispatchIsGate | backend/app.py:99-162 | the four-way `elif` chain opens exactly when the quarter gate does: currentQuarter is some k in 1..4 and grades 1..k are entered |
| GradePredictor.QuarterArgsLiterals | backend/app.py:110-116 | the quarter dicts the handler writes for one, two and three values are the specification's `QuarterArgs` |
| GradePredictor.Chain | backend/app.py:110-119 | the chain yields one prediction per quarter after the given ones |
| GradePredictor.Estimate | backend/app.py:99-165 | for k < 4 the estimate fails with the feature list exactly when some feature of `features['qk_final']` is not a column of the known-quarter frame; otherwise it has 4 - k predictions; for k = 4 the final grade is the mean of the four grades |
| GradePredictor.PredictionFor | backend/app.py:99-168 | a prediction has quarter k in 1..4, four grade slots and 4 - k predicted quarters |
| GradePredictor.Predicted | backend/app.py:64-168 | a prediction reached through the whole handler is well shaped |
| GradePredictor.PredictedGradesLiterals | backend/app.py:107-119 | the predicted-grades dicts the branches fill key by key are the specification's `PredictedGrades` |
| GradePredictor.PredictFromQuarter1 | backend/app.py:99-124 | the quarter-1 branch (Q2 from the cut frame, Q3 and Q4 chained, final from the cut frame) equals the specification's branch for k = 1 |
| GradePredictor.PredictFromQuarter2 | backend/app.py:126-145 | the quarter-2 branch equals the specification's branch for k = 2 |
| GradePredictor.PredictFromQuarter3 | backend/app.py:147-160 | the quarter-3 branch equals the specification's branch for k = 3 |
| GradePredictor.DispatchedByBranch | backend/app.py:99-165 | once the gate is open on k, the dispatch result is the branch for k with confidence `ConfidenceTable[k-1]` |
| GradePredictor.Dispatch | backend/app.py:98-168 | the `if/elif` dispatch, including the quarter-4 mean and the 'Invalid quarter data' error, equals the specification `Dispatched` |
| GradePredictor.ErrorText | backend/app.py:167-168 | only the failed quarter gate is answered with a fixed text, 'Invalid quarter data'; every other error carries `str(e)` |
| GradePredictor.Assemble | backend/app.py:170-188 | currentQuarter and the confidence are passed through; PASSED iff the unrounded final ≥ 0.75, AT RISK otherwise; the label is Above/Below/Average iff the final is above, below or equal to the class average |
| GradePredictor.Handle | backend/app.py:61-193 | a success echoes currentQuarter, needs currentQuarter, section and gender in the body, and reports the confidence of the quarter currentQuarter equals; a missing-field error names an absent key; a not-a-number error names one of q1..q4 |
| GradePredictor.Respond | backend/app.py:170-188 | the final grade analysis and the comparison equal the specification `Assemble` |
| GradePredictor.Predict | backend/app.py:61-193 | the whole handler returns exactly the specification `Handle` |
| PredictionProperties.EnteredAmongExactly | backend/app.py:93-96 | the entered-grades dict has key Q(i+1) exactly when grade i is entered, with value round(grade × 100, 2), and no other key |
| PredictionProperties.PredictedGradesExactly | backend/app.py:107-155 | the predicted-grades dict has exactly keys Q(k+1)..Q(k+n), each the prediction × 100 rounded |
| PredictionProperties.ChainFeedsForward | backend/app.py:110-118 | every chained prediction is made from the frame of all earlier quarters, the earlier predictions included |
| PredictionProperties.EstimateChains | backend/app.py:101-159 | for k < 4 the first prediction and the final grade come from the frame cut to the final predictor's features; each later quarter comes from the full frame of known grades and earlier predictions |
| PredictionProperties.KnownQuarterColumns | backend/app.py:101-150 | the frame of known quarters 1..k has exactly the first k quarter columns |
| PredictionProperties.KnownFrameNames | backend/app.py:101-150 | the frame of known quarters 1..k has the first k quarter columns followed by the category columns |
| PredictionProperties.QuarterArgsKeys | backend/app.py:101-149 | the quarter dict of quarters 1..n has keys q1..qn, each with its quarter's value |
| PredictionProperties.BadGradeFailsRequest | backend/app.py:72-75 | a truthy grade that float() rejects fails the request with that key's error, whatever quarter is asked for |
| PredictionProperties.ReadRequestExactly | backend/app.py:64-75 | reading the body succeeds exactly when currentQuarter, section and gender are present and each of q1..q4 reads; the request then carries the body's currentQuarter, section and gender |
| PredictionProperties.MissingFieldFirst | backend/app.py:67-69 | a missing currentQuarter, section or gender is the error, checked in that order before anything else |
| PredictionProperties.QuarterNumberExactly | backend/app.py:99-162 | `current_quarter == k` holds for the number k and, for k = 1, for `true`; never for a string |
| PredictionProperties.InvalidQuarterExactly | backend/app.py:99-168 | once the body is read, the reply is a failure with the text 'Invalid quarter data' exactly when the quarter gate is shut |
| PredictionProperties.UnenteredGradeShutsGate | backend/app.py:72-81 | once the body reads without error, a grade up to the current quarter that is missing, falsy or zero makes the reply 'Invalid quarter data' |
| PredictionProperties.MissingColumnsExactly | backend/app.py:102-150 | with the gate open on k < 4, the request succeeds exactly when every final-predictor feature is one of quarters 1..k or a category column; otherwise it fails with that feature list |
| PredictionProperties.SuccessMeansGateOpen | backend/app.py:99-168 | a successful reply implies a recognised quarter k and grades 1..k all among the entered grades |
| PredictionProperties.SuccessReportsEntered | backend/app.py:92-96 | a successful reply reports the entered grades of the grades read from the body |
| PredictionProperties.RequestGrade | backend/app.py:72-75 | grade slot i is what reading key q(i+1) gave |
| PredictionProperties.ReadGradeNormalises | backend/app.py:72-75 | a truthy grade that float() reads as x stands in the request as x / 100 |
| PredictionProperties.EnteredGradesEchoBody | backend/app.py:72-96 | a supplied grade x is reported exactly when x ≠ 0, and then as round(x, 2): dividing by 100 is undone |
| PredictionProperties.EnteredEcho | backend/app.py:72-96 | a grade stored as x / 100 is among the entered grades exactly when x ≠ 0, and is then reported as round(x, 2) |
| PredictionProperties.SkippedGradeNotEntered | backend/app.py:72-96 | a missing or falsy grade is never reported as entered |
| PredictionProperties.SuccessUsesEstimate | backend/app.py:99-160 | on success the reply's predictions and final grade are the estimates from the known grades 1..k |
| PredictionProperties.SuccessfulReplyShape | backend/app.py:85-165 | currentQuarter is echoed; predicted keys are exactly Q(k+1)..Q4; all keys are Q1..Q4; confidence is 70/85/95/100 for k = 1/2/3/4 |
| PredictionProperties.FinalGradeJudged | backend/app.py:171-188 | on success (`Judged`): PASSED iff final ≥ 0.75, AT RISK otherwise; percentage, class average and difference are rounded percents; label Above/Below/Average iff final >, <, = class average |
| PredictionProperties.AssembleRounds | backend/app.py:170-188 | the same final grade analysis (`Judged`) for any response assembled from a prediction |
| PredictionProperties.FourthQuarterIsMean | backend/app.py:162-165 | for quarter 4 nothing is predicted, the final is the mean of the four grades, and PASSED iff they sum to at least 300 |
| PredictionProperties.StatusJudgesUnroundedGrade | backend/app.py:171-177 | an example: a final of 74.999% shows as 75.0 when round(74.999, 2) is 75.0, and is still AT RISK, because the status uses the unrounded grade |
| PredictionProperties.EnteredAndPredictedPartition | backend/app.py:93-155 | when no grade after the current quarter is sent, each of Q1..Q4 is either entered or predicted, never both |
| PredictionProperties.LaterGradeIsAlsoPredicted | backend/app.py:93-155 | a grade sent for a quarter after the current one is reported both as entered and as predicted |
| PredictionProperties.PredictionIgnoresLaterGrades | backend/app.py:99-165 | the estimates depend only on currentQuarter, section, gender and the grades up to the current quarter |
| PredictionProperties.HandleAssembles | backend/app.py:61-193 | the reply succeeds exactly when the body reads and the prediction succeeds, and is then the assembled response |
| PredictionProperties.AssembleIgnoresGrades | backend/app.py:170-188 | the predicted grades, final grade and comparison of a response do not depend on the entered grades |
| PredictionProperties.OnlyKnownGradesMatter | backend/app.py:99-188 | two bodies that both read without error and agree up to the current quarter get the same verdict, predicted grades, final grade and comparison; a later grade matters only when float() rejects it (`BadGradeFailsRequest`) |

## Left out

- Flask routing, CORS, `jsonify`, HTTP status codes, the `/health` endpoint and `app.run`: HTTP plumbing. A reply is `Success(response)` or `Failure(error)`. `'success': True` and the status 400 are implied.
- A body that is not a JSON object (`request.json` absent or a list): the model takes the body as a map from keys to JSON values.
- Loading models, scalers, feature lists and class averages with `joblib.load`: file I/O. They are the fields of `Artifacts`.
- The internals of sklearn's scaler and regressor: they are total uninterpreted functions. Any exception they raise, such as a feature-name mismatch on an uncut frame, is not modelled.
- pandas internals: a one-row DataFrame is an ordered list of columns, and `df[cols]` is `SelectColumns`.
- IEEE floating point: grades are reals. `float(str)` and `round(x, 2)` are abstract functions of `Runtime`. NaN and infinity are not modelled. Binary rounding of `x / 100 * 100` is not modelled; the model has it exactly x.
- `PyValues.ToFloat`: a JSON integer too large for a double makes `float()` raise OverflowError, which the handler answers with status 400; in the model every number converts.
- Python's int and float are one kind of JSON number here: a `currentQuarter` sent as 1 and one sent as 1.0 are echoed alike, while `jsonify` writes them differently.
- The exact text of exception messages (`str(e)`): errors are the `Error` datatype, which names the failing key or feature list.
- backend/train_model.py and the frontend files are not part of this model.
- Nothing reads the `quarters` dict after it is built. `CollectQuarters` builds it as the source does, and no other member uses it.
