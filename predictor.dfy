/**
 * The POST /predict handler of backend/app.py: reads the JSON body, decides
 * which grades count as entered, dispatches on `currentQuarter`, chains the
 * quarter predictors, and assembles the final grade and the comparison with
 * the class average.
 *
 * The pickled regressors, scalers and feature lists and the class average are
 * loaded once at start-up; here they are the fields of an `Artifacts` value
 * passed to every call, and the regressors and scalers are opaque functions.
 */
module GradePredictor {
  import opened Wrappers
  import opened PyValues
  import opened Features

  /** `scaler.transform` on a one-row frame: the scaled feature row. */
  type Scaler = Frame -> seq<real>

  /** `model.predict(row)[0]`: the regressor's prediction for one scaled row. */
  type Regressor = seq<real> -> real

  /** The `models` dict. */
  datatype Models = Models(
    q1ToFinal: Regressor, q2ToFinal: Regressor, q3ToFinal: Regressor,
    q1ToQ2: Regressor, q2ToQ3: Regressor, q3ToQ4: Regressor)

  /** The `scalers` dict. */
  datatype Scalers = Scalers(
    q1Final: Scaler, q2Final: Scaler, q3Final: Scaler,
    q1ToQ2: Scaler, q2ToQ3: Scaler, q3ToQ4: Scaler)

  /** The `features` dict: the column lists the final predictors were trained on. */
  datatype FeatureLists = FeatureLists(q1Final: seq<string>, q2Final: seq<string>, q3Final: seq<string>)

  /** Everything loaded at start-up; `classAverageFinal` is `class_avg['final']`, a fraction of 1. */
  datatype Artifacts = Artifacts(models: Models, scalers: Scalers, features: FeatureLists, classAverageFinal: real)

  /** Why a request is answered with HTTP 400 `{'success': False, 'error': ...}`. */
  datatype Error =
    | MissingField(key: string)             // KeyError from data['...']
    | NotANumber(key: string)               // float(...) raised on a grade
    | MissingColumns(columns: seq<string>)  // KeyError from input_df[features[...]]
    | InvalidQuarterData                    // the quarter gate failed

  /** The error text of the failed quarter gate. */
  const InvalidQuarterMessage: string := "Invalid quarter data"

  /**
   * The fixed text of `response['error']`, where the handler writes a literal:
   * only the failed quarter gate has one; the other errors carry `str(e)`.
   */
  function ErrorText(e: Error): (r: Option<string>)
    ensures r.Some? <==> e.InvalidQuarterData?
    ensures r.Some? ==> r.value == "Invalid quarter data"
  {
    if e.InvalidQuarterData? then Some(InvalidQuarterMessage) else None
  }

  datatype FinalGrade = FinalGrade(percentage: real, status: string, confidence: int)

  datatype Comparison = Comparison(classAverage: real, difference: real, percentile: string)

  /** The body of a successful reply (`'success': True` is implied by `Success`). */
  datatype Response = Response(
    currentQuarter: Json,
    enteredGrades: map<string, real>,
    predictedGrades: map<string, real>,
    finalGrade: FinalGrade,
    comparison: Comparison)

  datatype Reply = Success(response: Response) | Failure(error: Error)

  /** The request keys of the four grades and the response keys they are reported under. */
  const RequestKeys: seq<string> := ["q1", "q2", "q3", "q4"]
  const ResponseKeys: seq<string> := ["Q1", "Q2", "Q3", "Q4"]

  /** The final grade (a fraction of 1) at or above which the status is PASSED. */
  const PassThreshold: real := 0.75

  /** The confidence reported for currentQuarter 1, 2, 3, 4. */
  const ConfidenceTable: seq<int> := [70, 85, 95, 100]

  const Passed: string := "PASSED"
  const AtRisk: string := "AT RISK"

  /**
   * One grade of the body, normalised to a fraction of 1: None when the key is
   * missing or its value is falsy; otherwise float() of the value divided by 100,
   * or the error float() raises.
   */
  function ReadGrade(rt: Runtime, body: map<string, Json>, key: string): (r: Result<Option<real>, Error>)
    ensures r == Ok(None) <==> key !in body || !Truthy(body[key])
    ensures r.Err? <==> key in body && Truthy(body[key]) && ToFloat(rt, body[key]).None?
    ensures r.Err? ==> r.error == NotANumber(key)
    ensures r.Ok? && r.value.Some? ==> key in body && ToFloat(rt, body[key]) == Some(r.value.value * 100.0)
  {
    if key !in body || !Truthy(body[key]) then Ok(None)
    else match ToFloat(rt, body[key])
      case None => Err(NotANumber(key))
      case Some(x) => Ok(Some(x / 100.0))
  }

  /** A normalised grade counts as entered when it is present and nonzero (`if q1:`). */
  predicate Entered(g: Option<real>) {
    g.Some? && g.value != 0.0
  }

  /** The four normalised grades q1..q4, read in that order; the first one that raises decides the error. */
  function ReadGrades(rt: Runtime, body: map<string, Json>): Result<seq<Option<real>>, Error> {
    match ReadGrade(rt, body, "q1")
    case Err(e) => Err(e)
    case Ok(g1) =>
      match ReadGrade(rt, body, "q2")
      case Err(e) => Err(e)
      case Ok(g2) =>
        match ReadGrade(rt, body, "q3")
        case Err(e) => Err(e)
        case Ok(g3) =>
          match ReadGrade(rt, body, "q4")
          case Err(e) => Err(e)
          case Ok(g4) => Ok([g1, g2, g3, g4])
  }

  /** The quarter k with `current_quarter == k`, for k in 1..4. */
  function QuarterNumber(v: Json): (r: Option<int>)
    ensures r.Some? ==> 1 <= r.value <= 4 && EqualsInt(v, r.value)
    ensures r.None? ==> forall k :: 1 <= k <= 4 ==> !EqualsInt(v, k)
  {
    if EqualsInt(v, 1) then Some(1)
    else if EqualsInt(v, 2) then Some(2)
    else if EqualsInt(v, 3) then Some(3)
    else if EqualsInt(v, 4) then Some(4)
    else None
  }

  /** The quarter gate: currentQuarter is some k in 1..4 and grades 1..k are all entered. */
  predicate GateOpen(currentQuarter: Json, grades: seq<Option<real>>): (r: bool)
    requires |grades| == 4
    ensures r <==> exists k :: 1 <= k <= 4 && EqualsInt(currentQuarter, k) && forall i :: 0 <= i < k ==> Entered(grades[i])
  {
    QuarterNumber(currentQuarter).Some?
    && forall i :: 0 <= i < QuarterNumber(currentQuarter).value ==> Entered(grades[i])
  }

  /** The handler's four-way `elif` chain opens exactly when the quarter gate does. */
  lemma DispatchIsGate(currentQuarter: Json, grades: seq<Option<real>>)
    requires |grades| == 4
    ensures GateOpen(currentQuarter, grades) <==>
      || (EqualsInt(currentQuarter, 1) && Entered(grades[0]))
      || (EqualsInt(currentQuarter, 2) && Entered(grades[0]) && Entered(grades[1]))
      || (EqualsInt(currentQuarter, 3) && Entered(grades[0]) && Entered(grades[1]) && Entered(grades[2]))
      || (EqualsInt(currentQuarter, 4) && Entered(grades[0]) && Entered(grades[1]) && Entered(grades[2]) && Entered(grades[3]))
  {
  }

  /** The values of the first k grades, all entered. */
  function Known(grades: seq<Option<real>>, k: nat): (r: seq<real>)
    requires k <= |grades|
    requires forall i :: 0 <= i < k ==> Entered(grades[i])
    ensures |r| == k
  {
    seq(k, i requires 0 <= i < k && Entered(grades[i]) => grades[i].value)
  }

  /** The quarter dict handed to create_input_df: {'q1': v1, ..., 'qn': vn}. */
  function QuarterArgs(values: seq<real>): map<string, real>
    requires |values| <= 3
  {
    if values == [] then map[]
    else
      var n := |values| - 1;
      QuarterArgs(values[..n])[RequestKeys[n] := values[n]]
  }

  /** QuarterArgs of one, two and three values is the dict literal the handler writes. */
  lemma QuarterArgsLiterals(v1: real, v2: real, v3: real)
    ensures QuarterArgs([v1]) == map["q1" := v1]
    ensures QuarterArgs([v1, v2]) == map["q1" := v1, "q2" := v2]
    ensures QuarterArgs([v1, v2, v3]) == map["q1" := v1, "q2" := v2, "q3" := v3]
  {
    assert [v1][..0] == [];
    assert [v1, v2][..1] == [v1];
    assert [v1, v2, v3][..2] == [v1, v2];
  }

  /** The predictor of quarter n + 1 from quarters 1..n: scalers['qn_to_qn+1'] then models['qn_to_qn+1']. */
  function NextQuarter(a: Artifacts, n: int, f: Frame): real
    requires 1 <= n <= 3
  {
    if n == 1 then a.models.q1ToQ2(a.scalers.q1ToQ2(f))
    else if n == 2 then a.models.q2ToQ3(a.scalers.q2ToQ3(f))
    else a.models.q3ToQ4(a.scalers.q3ToQ4(f))
  }

  /** The final predictor from quarters 1..k: scalers['qk_final'] then models['qk_to_final']. */
  function FinalFrom(a: Artifacts, k: int, f: Frame): real
    requires 1 <= k <= 3
  {
    if k == 1 then a.models.q1ToFinal(a.scalers.q1Final(f))
    else if k == 2 then a.models.q2ToFinal(a.scalers.q2Final(f))
    else a.models.q3ToFinal(a.scalers.q3Final(f))
  }

  /** features['qk_final']. */
  function FinalFeatures(a: Artifacts, k: int): seq<string>
    requires 1 <= k <= 3
  {
    if k == 1 then a.features.q1Final else if k == 2 then a.features.q2Final else a.features.q3Final
  }

  /**
   * The chained predictions for the quarters after the given ones: each next
   * quarter is predicted from the frame of all quarters before it, predicted
   * ones included, and is then itself fed into the following prediction.
   */
  function Chain(a: Artifacts, grades: seq<real>, section: Json, gender: Json): (r: seq<real>)
    requires 1 <= |grades| <= 4
    ensures |r| == 4 - |grades|
    decreases 4 - |grades|
  {
    if |grades| == 4 then []
    else
      var p := NextQuarter(a, |grades|, InputColumns(QuarterArgs(grades), section, gender));
      [p] + Chain(a, grades + [p], section, gender)
  }

  /** What the response is assembled from: the quarter dispatched on, the grades, and the estimates. */
  datatype Prediction = Prediction(
    quarter: int,
    grades: seq<Option<real>>,
    predicted: seq<real>,  // normalised predictions for quarters quarter+1 .. 4
    final: real,           // the normalised final grade
    confidence: int)

  predicate WellShaped(p: Prediction) {
    1 <= p.quarter <= 4 && |p.grades| == 4 && |p.predicted| == 4 - p.quarter
  }

  /**
   * The estimates for quarter k from the known grades 1..k. For k < 4 the frame of the
   * known quarters, cut to features['qk_final'], feeds both the first next-quarter
   * predictor and the final predictor; the later quarters are chained. For k = 4 the
   * final is the mean of the four grades.
   */
  function Estimate(a: Artifacts, k: int, known: seq<real>, section: Json, gender: Json)
    : (r: Result<(seq<real>, real), Error>)
    requires 1 <= k <= 4 && |known| == k
    ensures r.Ok? ==> |r.value.0| == 4 - k
    ensures r.Err? <==> k < 4 && exists c :: c in FinalFeatures(a, k) && c !in Names(InputColumns(QuarterArgs(known), section, gender))
    ensures r.Err? ==> r.error == MissingColumns(FinalFeatures(a, k))
    ensures k == 4 ==> r.Ok? && 4.0 * r.value.1 == known[0] + known[1] + known[2] + known[3]
  {
    if k == 4 then Ok(([], (known[0] + known[1] + known[2] + known[3]) / 4.0))
    else
      match SelectColumns(InputColumns(QuarterArgs(known), section, gender), FinalFeatures(a, k))
      case None => Err(MissingColumns(FinalFeatures(a, k)))
      case Some(selected) =>
        var first := NextQuarter(a, k, selected);
        Ok(([first] + Chain(a, known + [first], section, gender), FinalFrom(a, k, selected)))
  }

  /** The inputs the handler reads before it branches: the three fields and the four normalised grades. */
  datatype Request = Request(currentQuarter: Json, section: Json, gender: Json, grades: seq<Option<real>>)

  /** Reading the body (backend/app.py:64-75): the first KeyError or float() failure decides the error. */
  function ReadRequest(rt: Runtime, body: map<string, Json>): (r: Result<Request, Error>)
    ensures r.Ok? ==> |r.value.grades| == 4
  {
    if "currentQuarter" !in body then Err(MissingField("currentQuarter"))
    else if "section" !in body then Err(MissingField("section"))
    else if "gender" !in body then Err(MissingField("gender"))
    else match ReadGrades(rt, body)
      case Err(e) => Err(e)
      case Ok(grades) => Ok(Request(body["currentQuarter"], body["section"], body["gender"], grades))
  }

  /** The quarter gate, then the estimates for the quarter it opens on. */
  function PredictionFor(a: Artifacts, req: Request): (r: Result<Prediction, Error>)
    requires |req.grades| == 4
    ensures r.Ok? ==> WellShaped(r.value)
  {
    if !GateOpen(req.currentQuarter, req.grades) then Err(InvalidQuarterData)
    else
      var k := QuarterNumber(req.currentQuarter).value;
      match Estimate(a, k, Known(req.grades, k), req.section, req.gender)
      case Err(e) => Err(e)
      case Ok(est) => Ok(Prediction(k, req.grades, est.0, est.1, ConfidenceTable[k - 1]))
  }

  /** Everything up to the response: the errors in the order the handler meets them, or the prediction. */
  function Predicted(rt: Runtime, a: Artifacts, body: map<string, Json>): (r: Result<Prediction, Error>)
    ensures r.Ok? ==> WellShaped(r.value)
  {
    match ReadRequest(rt, body)
    case Err(e) => Err(e)
    case Ok(req) => PredictionFor(a, req)
  }

  /** The grades reported as entered: every entered grade, back in percent. */
  function EnteredGrades(rt: Runtime, grades: seq<Option<real>>): map<string, real>
    requires |grades| == 4
  {
    EnteredAmong(rt, grades, 4)
  }

  /** The entered grades among the first n quarters, back in percent, added in quarter order. */
  function EnteredAmong(rt: Runtime, grades: seq<Option<real>>, n: nat): map<string, real>
    requires n <= |grades| == 4
  {
    if n == 0 then map[]
    else if Entered(grades[n - 1]) then
      EnteredAmong(rt, grades, n - 1)[ResponseKeys[n - 1] := rt.round2(grades[n - 1].value * 100.0)]
    else EnteredAmong(rt, grades, n - 1)
  }

  /** The grades reported as predicted: the predictions for quarters k+1, k+2, ... in percent, added in quarter order. */
  function PredictedGrades(rt: Runtime, k: int, predicted: seq<real>): map<string, real>
    requires 0 <= k && k + |predicted| <= 4
  {
    if predicted == [] then map[]
    else
      var n := |predicted| - 1;
      PredictedGrades(rt, k, predicted[..n])[ResponseKeys[k + n] := rt.round2(predicted[n] * 100.0)]
  }

  /** PredictedGrades of one, two and three predictions is the dict the handler fills key by key. */
  lemma PredictedGradesLiterals(rt: Runtime, v2: real, v3: real, v4: real)
    ensures PredictedGrades(rt, 3, [v4]) == map["Q4" := rt.round2(v4 * 100.0)]
    ensures PredictedGrades(rt, 2, [v3, v4]) == map["Q3" := rt.round2(v3 * 100.0), "Q4" := rt.round2(v4 * 100.0)]
    ensures PredictedGrades(rt, 1, [v2, v3, v4])
         == map["Q2" := rt.round2(v2 * 100.0), "Q3" := rt.round2(v3 * 100.0), "Q4" := rt.round2(v4 * 100.0)]
  {
    assert [v4][..0] == [] && [v3, v4][..1] == [v3] && [v3][..0] == [];
    assert PredictedGrades(rt, 2, [v3]) == map["Q3" := rt.round2(v3 * 100.0)];
    assert [v2, v3, v4][..2] == [v2, v3] && [v2, v3][..1] == [v2] && [v2][..0] == [];
    assert PredictedGrades(rt, 1, [v2]) == map["Q2" := rt.round2(v2 * 100.0)];
    assert PredictedGrades(rt, 1, [v2, v3]) == map["Q2" := rt.round2(v2 * 100.0), "Q3" := rt.round2(v3 * 100.0)];
  }

  /** The percentile label of a difference from the class average. */
  function Percentile(diff: real): string {
    if diff > 0.0 then "Above Average" else if diff < 0.0 then "Below Average" else "Average"
  }

  /** The response assembled from a prediction. */
  function Assemble(rt: Runtime, a: Artifacts, currentQuarter: Json, p: Prediction): (r: Response)
    requires WellShaped(p)
    ensures r.currentQuarter == currentQuarter && r.finalGrade.confidence == p.confidence
    ensures r.finalGrade.status == Passed <==> p.final >= PassThreshold
    ensures r.finalGrade.status == AtRisk <==> p.final < PassThreshold
    ensures r.comparison.percentile == "Above Average" <==> p.final > a.classAverageFinal
    ensures r.comparison.percentile == "Below Average" <==> p.final < a.classAverageFinal
    ensures r.comparison.percentile == "Average" <==> p.final == a.classAverageFinal
  {
    var finalPct := p.final * 100.0;
    var avgFinal := a.classAverageFinal * 100.0;
    var diff := finalPct - avgFinal;
    Response(
      currentQuarter,
      EnteredGrades(rt, p.grades),
      PredictedGrades(rt, p.quarter, p.predicted),
      FinalGrade(rt.round2(finalPct), if p.final >= PassThreshold then Passed else AtRisk, p.confidence),
      Comparison(rt.round2(avgFinal), rt.round2(diff), Percentile(diff)))
  }

  /** The reply to a POST /predict with the given JSON body. */
  function Handle(rt: Runtime, a: Artifacts, body: map<string, Json>): (r: Reply)
    ensures r.Success? ==> && "currentQuarter" in body && "section" in body && "gender" in body
                           && r.response.currentQuarter == body["currentQuarter"]
    ensures r.Success? ==> var k := QuarterNumber(body["currentQuarter"]);
                           k.Some? && r.response.finalGrade.confidence == ConfidenceTable[k.value - 1]
    ensures r.Failure? && r.error.MissingField? ==> r.error.key !in body
    ensures r.Failure? && r.error.NotANumber? ==> r.error.key in RequestKeys && r.error.key in body
  {
    match Predicted(rt, a, body)
    case Err(e) => Failure(e)
    case Ok(p) => Success(Assemble(rt, a, body["currentQuarter"], p))
  }

  /** The `quarters` dict (backend/app.py:77-81): each entered grade under its request key. Nothing reads it afterwards. */
  method CollectQuarters(grades: seq<Option<real>>) returns (quarters: map<string, real>)
    requires |grades| == 4
    ensures forall i :: 0 <= i < 4 ==> (RequestKeys[i] in quarters <==> Entered(grades[i]))
    ensures forall i :: 0 <= i < 4 && Entered(grades[i]) ==> quarters[RequestKeys[i]] == grades[i].value
    ensures forall key :: key in quarters ==> key in RequestKeys
  {
    quarters := map[];
    if Entered(grades[0]) { quarters := quarters["q1" := grades[0].value]; }
    if Entered(grades[1]) { quarters := quarters["q2" := grades[1].value]; }
    if Entered(grades[2]) { quarters := quarters["q3" := grades[2].value]; }
    if Entered(grades[3]) { quarters := quarters["q4" := grades[3].value]; }
  }

  /** `response['enteredGrades']`: each entered grade under its response key, back in percent. */
  method CollectEntered(rt: Runtime, grades: seq<Option<real>>) returns (entered: map<string, real>)
    requires |grades| == 4
    ensures entered == EnteredGrades(rt, grades)
  {
    entered := map[];
    if Entered(grades[0]) { entered := entered["Q1" := rt.round2(grades[0].value * 100.0)]; }
    assert entered == EnteredAmong(rt, grades, 1);
    if Entered(grades[1]) { entered := entered["Q2" := rt.round2(grades[1].value * 100.0)]; }
    assert entered == EnteredAmong(rt, grades, 2);
    if Entered(grades[2]) { entered := entered["Q3" := rt.round2(grades[2].value * 100.0)]; }
    assert entered == EnteredAmong(rt, grades, 3);
    if Entered(grades[3]) { entered := entered["Q4" := rt.round2(grades[3].value * 100.0)]; }
  }

  /** What a branch of the dispatch yields: the predicted-grades dict and the normalised final grade. */
  function Branch(rt: Runtime, a: Artifacts, k: int, known: seq<real>, section: Json, gender: Json)
    : Result<(map<string, real>, real), Error>
    requires 1 <= k <= 4 && |known| == k
  {
    match Estimate(a, k, known, section, gender)
    case Err(e) => Err(e)
    case Ok(est) =>
      assert |est.0| == 4 - k;
      Ok((PredictedGrades(rt, k, est.0), est.1))
  }

  /** The `current_quarter == 1` branch: predict Q2, chain it into Q3 and Q4, and the final from Q1 alone. */
  method PredictFromQuarter1(rt: Runtime, a: Artifacts, q1: real, section: Json, gender: Json)
    returns (r: Result<(map<string, real>, real), Error>)
    ensures r == Branch(rt, a, 1, [q1], section, gender)
  {
    var predicted: map<string, real> := map[];
    var inputDf := CreateInputDf(map["q1" := q1], section, gender);
    var selected := SelectColumns(inputDf, a.features.q1Final);
    QuarterArgsLiterals(q1, 0.0, 0.0);
    if selected.None? {
      return Err(MissingColumns(a.features.q1Final));
    }
    var predQ2 := a.models.q1ToQ2(a.scalers.q1ToQ2(selected.value));
    predicted := predicted["Q2" := rt.round2(predQ2 * 100.0)];
    var inputDf2 := CreateInputDf(map["q1" := q1, "q2" := predQ2], section, gender);
    var predQ3 := a.models.q2ToQ3(a.scalers.q2ToQ3(inputDf2));
    predicted := predicted["Q3" := rt.round2(predQ3 * 100.0)];
    var inputDf3 := CreateInputDf(map["q1" := q1, "q2" := predQ2, "q3" := predQ3], section, gender);
    var predQ4 := a.models.q3ToQ4(a.scalers.q3ToQ4(inputDf3));
    predicted := predicted["Q4" := rt.round2(predQ4 * 100.0)];
    var finalGrade := a.models.q1ToFinal(a.scalers.q1Final(selected.value));
    r := Ok((predicted, finalGrade));

    QuarterArgsLiterals(q1, predQ2, predQ3);
    assert Chain(a, [q1, predQ2, predQ3], section, gender) == [predQ4];
    assert Chain(a, [q1] + [predQ2], section, gender) == [predQ3, predQ4];
    assert [predQ2] + [predQ3, predQ4] == [predQ2, predQ3, predQ4];
    assert Estimate(a, 1, [q1], section, gender) == Ok(([predQ2, predQ3, predQ4], finalGrade));
    PredictedGradesLiterals(rt, predQ2, predQ3, predQ4);
  }

  /** The `current_quarter == 2` branch: predict Q3, chain it into Q4, and the final from Q1 and Q2. */
  method PredictFromQuarter2(rt: Runtime, a: Artifacts, q1: real, q2: real, section: Json, gender: Json)
    returns (r: Result<(map<string, real>, real), Error>)
    ensures r == Branch(rt, a, 2, [q1, q2], section, gender)
  {
    var predicted: map<string, real> := map[];
    var inputDf := CreateInputDf(map["q1" := q1, "q2" := q2], section, gender);
    var selected := SelectColumns(inputDf, a.features.q2Final);
    QuarterArgsLiterals(q1, q2, 0.0);
    if selected.None? {
      return Err(MissingColumns(a.features.q2Final));
    }
    var predQ3 := a.models.q2ToQ3(a.scalers.q2ToQ3(selected.value));
    predicted := predicted["Q3" := rt.round2(predQ3 * 100.0)];
    var inputDf2 := CreateInputDf(map["q1" := q1, "q2" := q2, "q3" := predQ3], section, gender);
    var predQ4 := a.models.q3ToQ4(a.scalers.q3ToQ4(inputDf2));
    predicted := predicted["Q4" := rt.round2(predQ4 * 100.0)];
    var finalGrade := a.models.q2ToFinal(a.scalers.q2Final(selected.value));
    r := Ok((predicted, finalGrade));

    QuarterArgsLiterals(q1, q2, predQ3);
    assert Chain(a, [q1, q2] + [predQ3], section, gender) == [predQ4];
    assert [predQ3] + [predQ4] == [predQ3, predQ4];
    assert Estimate(a, 2, [q1, q2], section, gender) == Ok(([predQ3, predQ4], finalGrade));
    PredictedGradesLiterals(rt, 0.0, predQ3, predQ4);
  }

  /** The `current_quarter == 3` branch: predict Q4, and the final from Q1..Q3. */
  method PredictFromQuarter3(rt: Runtime, a: Artifacts, q1: real, q2: real, q3: real, section: Json, gender: Json)
    returns (r: Result<(map<string, real>, real), Error>)
    ensures r == Branch(rt, a, 3, [q1, q2, q3], section, gender)
  {
    var predicted: map<string, real> := map[];
    var inputDf := CreateInputDf(map["q1" := q1, "q2" := q2, "q3" := q3], section, gender);
    var selected := SelectColumns(inputDf, a.features.q3Final);
    QuarterArgsLiterals(q1, q2, q3);
    if selected.None? {
      return Err(MissingColumns(a.features.q3Final));
    }
    var predQ4 := a.models.q3ToQ4(a.scalers.q3ToQ4(selected.value));
    predicted := predicted["Q4" := rt.round2(predQ4 * 100.0)];
    var finalGrade := a.models.q3ToFinal(a.scalers.q3Final(selected.value));
    r := Ok((predicted, finalGrade));

    assert Chain(a, [q1, q2, q3] + [predQ4], section, gender) == [];
    assert [predQ4] + [] == [predQ4];
    assert Estimate(a, 3, [q1, q2, q3], section, gender) == Ok(([predQ4], finalGrade));
    PredictedGradesLiterals(rt, 0.0, 0.0, predQ4);
  }

  /** The final grade analysis and the comparison with the class average, added to the response. */
  method Respond(rt: Runtime, a: Artifacts, currentQuarter: Json, entered: map<string, real>,
                 predicted: map<string, real>, finalGrade: real, confidence: int, ghost p: Prediction)
    returns (response: Response)
    requires WellShaped(p) && p.final == finalGrade && p.confidence == confidence
    requires entered == EnteredGrades(rt, p.grades) && predicted == PredictedGrades(rt, p.quarter, p.predicted)
    ensures response == Assemble(rt, a, currentQuarter, p)
  {
    var finalPct := finalGrade * 100.0;
    var status := if finalGrade >= 0.75 then "PASSED" else "AT RISK";
    var avgFinal := a.classAverageFinal * 100.0;
    var diff := finalPct - avgFinal;
    var percentile := if diff > 0.0 then "Above Average" else if diff < 0.0 then "Below Average" else "Average";
    response := Response(currentQuarter, entered, predicted,
      FinalGrade(rt.round2(finalPct), status, confidence),
      Comparison(rt.round2(avgFinal), rt.round2(diff), percentile));
  }

  /** Reading the body (backend/app.py:64-75): currentQuarter, section, gender, then the four grades. */
  method ReadInputs(rt: Runtime, data: map<string, Json>) returns (r: Result<Request, Error>)
    ensures r == ReadRequest(rt, data)
  {
    if "currentQuarter" !in data { return Err(MissingField("currentQuarter")); }
    var currentQuarter := data["currentQuarter"];
    if "section" !in data { return Err(MissingField("section")); }
    var section := data["section"];
    if "gender" !in data { return Err(MissingField("gender")); }
    var gender := data["gender"];
    var q1 := ReadGrade(rt, data, "q1");
    if q1.Err? { return Err(q1.error); }
    var q2 := ReadGrade(rt, data, "q2");
    if q2.Err? { return Err(q2.error); }
    var q3 := ReadGrade(rt, data, "q3");
    if q3.Err? { return Err(q3.error); }
    var q4 := ReadGrade(rt, data, "q4");
    if q4.Err? { return Err(q4.error); }
    r := Ok(Request(currentQuarter, section, gender, [q1.value, q2.value, q3.value, q4.value]));
  }

  /** What the dispatch hands on to the response: the predicted-grades dict, the final grade and the confidence. */
  function Dispatched(rt: Runtime, a: Artifacts, req: Request): Result<(map<string, real>, real, int), Error>
    requires |req.grades| == 4
  {
    match PredictionFor(a, req)
    case Err(e) => Err(e)
    case Ok(p) => Ok((PredictedGrades(rt, p.quarter, p.predicted), p.final, p.confidence))
  }

  /** A branch's outcome with the branch's confidence attached. */
  function WithConfidence(branch: Result<(map<string, real>, real), Error>, confidence: int)
    : Result<(map<string, real>, real, int), Error>
  {
    match branch
    case Err(e) => Err(e)
    case Ok(b) => Ok((b.0, b.1, confidence))
  }

  /** Once the gate is open on quarter k, the dispatch is the branch for k with the table's confidence. */
  lemma DispatchedByBranch(rt: Runtime, a: Artifacts, req: Request, k: int, known: seq<real>)
    requires |req.grades| == 4 && GateOpen(req.currentQuarter, req.grades)
    requires QuarterNumber(req.currentQuarter) == Some(k) && known == Known(req.grades, k)
    ensures Dispatched(rt, a, req) ==
      WithConfidence(Branch(rt, a, k, known, req.section, req.gender), ConfidenceTable[k - 1])
  {
  }

  /**
   * The quarter-gated dispatch (backend/app.py:99-168): the predicted-grades dict,
   * the normalised final grade and the confidence, or the error that ends the request.
   */
  method Dispatch(rt: Runtime, a: Artifacts, req: Request) returns (r: Result<(map<string, real>, real, int), Error>)
    requires |req.grades| == 4
    ensures r == Dispatched(rt, a, req)
  {
    var currentQuarter, q1, q2, q3, q4 := req.currentQuarter, req.grades[0], req.grades[1], req.grades[2], req.grades[3];
    DispatchIsGate(currentQuarter, req.grades);
    if EqualsInt(currentQuarter, 1) && Entered(q1) {
      var branch := PredictFromQuarter1(rt, a, q1.value, req.section, req.gender);
      r := WithConfidence(branch, 70);
      DispatchedByBranch(rt, a, req, 1, [q1.value]);
    } else if EqualsInt(currentQuarter, 2) && Entered(q1) && Entered(q2) {
      var branch := PredictFromQuarter2(rt, a, q1.value, q2.value, req.section, req.gender);
      r := WithConfidence(branch, 85);
      DispatchedByBranch(rt, a, req, 2, [q1.value, q2.value]);
    } else if EqualsInt(currentQuarter, 3) && Entered(q1) && Entered(q2) && Entered(q3) {
      var branch := PredictFromQuarter3(rt, a, q1.value, q2.value, q3.value, req.section, req.gender);
      r := WithConfidence(branch, 95);
      DispatchedByBranch(rt, a, req, 3, [q1.value, q2.value, q3.value]);
    } else if EqualsInt(currentQuarter, 4) && Entered(q1) && Entered(q2) && Entered(q3) && Entered(q4) {
      // the grades are already normalised, so the final grade is their mean and nothing is predicted
      var finalGrade := (q1.value + q2.value + q3.value + q4.value) / 4.0;
      r := Ok((map[], finalGrade, 100));
      assert PredictedGrades(rt, 4, []) == map[];
      DispatchedByBranch(rt, a, req, 4, [q1.value, q2.value, q3.value, q4.value]);
    } else {
      r := Err(InvalidQuarterData);
    }
  }

  /** The handler `predict`: read the body, record the entered grades, dispatch, and answer. */
  method Predict(rt: Runtime, a: Artifacts, data: map<string, Json>) returns (reply: Reply)
    ensures reply == Handle(rt, a, data)
  {
    var input := ReadInputs(rt, data);
    if input.Err? {
      return Failure(input.error);
    }
    var req := input.value;
    var quarters := CollectQuarters(req.grades);
    var entered := CollectEntered(rt, req.grades);
    var dispatched := Dispatch(rt, a, req);
    if dispatched.Err? {
      return Failure(dispatched.error);
    }
    var predicted, finalGrade, confidence := dispatched.value.0, dispatched.value.1, dispatched.value.2;
    var response := Respond(rt, a, req.currentQuarter, entered, predicted, finalGrade, confidence,
                            PredictionFor(a, req).value);
    reply := Success(response);
  }
}
