/**
 * What the POST /predict handler promises, stated over the model in
 * predictor.dfy: which grades count as entered, when the quarter gate opens,
 * which quarters are predicted and how each prediction feeds the next, how
 * the final grade is judged, and which inputs the reply depends on.
 */
module PredictionProperties {
  import opened Wrappers
  import opened PyValues
  import opened Features
  import opened GradePredictor

  // ---------------------------------------------------------------------------
  // The response dicts

  /** The entered grades among the first n quarters: exactly the entered ones, each back in percent. */
  lemma {:induction false} EnteredAmongExactly(rt: Runtime, grades: seq<Option<real>>, n: nat)
    requires n <= |grades| == 4
    ensures forall i :: 0 <= i < 4 ==> (ResponseKeys[i] in EnteredAmong(rt, grades, n) <==> i < n && Entered(grades[i]))
    ensures forall i :: 0 <= i < n && Entered(grades[i]) ==>
      EnteredAmong(rt, grades, n)[ResponseKeys[i]] == rt.round2(grades[i].value * 100.0)
    ensures forall key :: key in EnteredAmong(rt, grades, n) ==> key in ResponseKeys
  {
    if n > 0 {
      EnteredAmongExactly(rt, grades, n - 1);
    }
  }

  /** The predicted grades for the quarters after k: keys Q(k+1) .. Q(k+|predicted|), each prediction in percent. */
  lemma {:induction false} PredictedGradesExactly(rt: Runtime, k: int, predicted: seq<real>)
    requires 0 <= k && k + |predicted| <= 4
    ensures forall i :: 0 <= i < 4 ==> (ResponseKeys[i] in PredictedGrades(rt, k, predicted) <==> k <= i < k + |predicted|)
    ensures forall i :: k <= i < k + |predicted| ==>
      PredictedGrades(rt, k, predicted)[ResponseKeys[i]] == rt.round2(predicted[i - k] * 100.0)
    ensures forall key :: key in PredictedGrades(rt, k, predicted) ==> key in ResponseKeys
  {
    if predicted != [] {
      var n := |predicted| - 1;
      var m := PredictedGrades(rt, k, predicted[..n]);
      assert PredictedGrades(rt, k, predicted) == m[ResponseKeys[k + n] := rt.round2(predicted[n] * 100.0)];
      PredictedGradesExactly(rt, k, predicted[..n]);
      forall j | 0 <= j < n ensures predicted[..n][j] == predicted[j] {
      }
    }
  }

  // ---------------------------------------------------------------------------
  // The quarter predictors

  /**
   * Every chained prediction is made from the frame of all quarters before it,
   * the earlier predictions of the chain included.
   */
  lemma {:induction false} ChainFeedsForward(a: Artifacts, grades: seq<real>, section: Json, gender: Json, i: nat)
    requires 1 <= |grades| <= 4 && i < 4 - |grades|
    ensures Chain(a, grades, section, gender)[i]
         == NextQuarter(a, |grades| + i, InputColumns(QuarterArgs(grades + Chain(a, grades, section, gender)[..i]), section, gender))
    decreases i
  {
    var c := Chain(a, grades, section, gender);
    var p := NextQuarter(a, |grades|, InputColumns(QuarterArgs(grades), section, gender));
    var rest := Chain(a, grades + [p], section, gender);
    assert c == [p] + rest;
    if i == 0 {
      assert grades + c[..0] == grades;
    } else {
      ChainFeedsForward(a, grades + [p], section, gender, i - 1);
      assert c[i] == rest[i - 1];
      assert grades + c[..i] == (grades + [p]) + rest[..i - 1];
    }
  }

  /**
   * For quarters 1..3 the first prediction and the final grade both come from the
   * frame cut to the final predictor's features; each later quarter is predicted
   * from the full frame of the known grades and the predictions before it.
   */
  lemma EstimateChains(a: Artifacts, k: int, known: seq<real>, section: Json, gender: Json, i: nat)
    requires 1 <= k <= 3 && |known| == k && Estimate(a, k, known, section, gender).Ok?
    requires i < 4 - k
    ensures SelectColumns(InputColumns(QuarterArgs(known), section, gender), FinalFeatures(a, k)).Some?
    ensures var selected := SelectColumns(InputColumns(QuarterArgs(known), section, gender), FinalFeatures(a, k)).value;
      var est := Estimate(a, k, known, section, gender).value;
      && |est.0| == 4 - k
      && est.1 == FinalFrom(a, k, selected)
      && est.0[i] == if i == 0 then NextQuarter(a, k, selected)
                     else NextQuarter(a, k + i, InputColumns(QuarterArgs(known + est.0[..i]), section, gender))
  {
    var selected := SelectColumns(InputColumns(QuarterArgs(known), section, gender), FinalFeatures(a, k)).value;
    var first := NextQuarter(a, k, selected);
    var rest := Chain(a, known + [first], section, gender);
    var est := Estimate(a, k, known, section, gender).value;
    assert est.0 == [first] + rest;
    if i > 0 {
      ChainFeedsForward(a, known + [first], section, gender, i - 1);
      assert est.0[i] == rest[i - 1];
      assert known + est.0[..i] == (known + [first]) + rest[..i - 1];
    }
  }

  /** The frame of the known quarters 1..k has the first k quarter columns, then the seven category columns. */
  lemma KnownFrameNames(known: seq<real>, section: Json, gender: Json)
    requires 1 <= |known| <= 3
    ensures Names(InputColumns(QuarterArgs(known), section, gender))
         == QuarterColumnNames[..|known|] + Names(CategoryColumns(section, gender))
  {
    KnownQuarterColumns(known);
    NamesAppend(QuarterColumns(QuarterArgs(known)), CategoryColumns(section, gender));
  }

  /** The quarter dict of the values for quarters 1..n has the keys q1..qn, each with its quarter's value. */
  lemma {:induction false} QuarterArgsKeys(values: seq<real>)
    requires |values| <= 3
    ensures forall i :: 0 <= i < 3 ==> (QuarterKeys[i] in QuarterArgs(values) <==> i < |values|)
    ensures forall i :: 0 <= i < |values| ==> QuarterArgs(values)[QuarterKeys[i]] == values[i]
  {
    if values != [] {
      var n := |values| - 1;
      QuarterArgsKeys(values[..n]);
      assert forall i :: 0 <= i < n ==> values[..n][i] == values[i];
    }
  }

  /** The quarter columns of the known quarters 1..k are the first k quarter columns. */
  lemma KnownQuarterColumns(known: seq<real>)
    requires 1 <= |known| <= 3
    ensures Names(QuarterColumns(QuarterArgs(known))) == QuarterColumnNames[..|known|]
  {
    QuarterArgsKeys(known);
    QuarterColumnsOfFirstKeys(QuarterArgs(known), |known|);
  }

  // ---------------------------------------------------------------------------
  // Reading the body

  /** A truthy grade that float() rejects fails the whole request, whatever quarter is asked for. */
  lemma {:induction false} BadGradeFailsRequest(rt: Runtime, a: Artifacts, body: map<string, Json>, i: nat)
    requires "currentQuarter" in body && "section" in body && "gender" in body
    requires i < 4 && forall j :: 0 <= j < i ==> ReadGrade(rt, body, RequestKeys[j]).Ok?
    requires RequestKeys[i] in body && Truthy(body[RequestKeys[i]]) && ToFloat(rt, body[RequestKeys[i]]) == None
    ensures Handle(rt, a, body) == Failure(NotANumber(RequestKeys[i]))
  {
    assert ReadGrade(rt, body, RequestKeys[i]) == Err(NotANumber(RequestKeys[i]));
    if i > 0 { assert ReadGrade(rt, body, RequestKeys[0]).Ok?; }
    if i > 1 { assert ReadGrade(rt, body, RequestKeys[1]).Ok?; }
    if i > 2 { assert ReadGrade(rt, body, RequestKeys[2]).Ok?; }
  }

  /**
   * Reading the body succeeds exactly when it has currentQuarter, section and gender
   * and each of q1..q4 reads; the request then carries the body's three values.
   */
  lemma ReadRequestExactly(rt: Runtime, body: map<string, Json>)
    ensures ReadRequest(rt, body).Ok? <==>
      && "currentQuarter" in body && "section" in body && "gender" in body
      && forall i :: 0 <= i < 4 ==> ReadGrade(rt, body, RequestKeys[i]).Ok?
    ensures ReadRequest(rt, body).Ok? ==>
      var req := ReadRequest(rt, body).value;
      && req.currentQuarter == body["currentQuarter"] && req.section == body["section"] && req.gender == body["gender"]
  {
    if "currentQuarter" in body && "section" in body && "gender" in body
      && forall i :: 0 <= i < 4 ==> ReadGrade(rt, body, RequestKeys[i]).Ok?
    {
      assert ReadGrade(rt, body, "q1").Ok? && ReadGrade(rt, body, "q2").Ok? by {
        assert RequestKeys[0] == "q1" && RequestKeys[1] == "q2";
      }
      assert ReadGrade(rt, body, "q3").Ok? && ReadGrade(rt, body, "q4").Ok? by {
        assert RequestKeys[2] == "q3" && RequestKeys[3] == "q4";
      }
    }
  }

  /** The three fields are read before anything else; the first one missing is the error. */
  lemma MissingFieldFirst(rt: Runtime, a: Artifacts, body: map<string, Json>)
    ensures "currentQuarter" !in body ==> Handle(rt, a, body) == Failure(MissingField("currentQuarter"))
    ensures "currentQuarter" in body && "section" !in body ==> Handle(rt, a, body) == Failure(MissingField("section"))
    ensures "currentQuarter" in body && "section" in body && "gender" !in body
      ==> Handle(rt, a, body) == Failure(MissingField("gender"))
  {
  }

  /** `current_quarter == k` holds for the number k and, for k = 1, also for true; never for a string. */
  lemma QuarterNumberExactly(v: Json, k: int)
    ensures QuarterNumber(v) == Some(k) <==> 1 <= k <= 4 && (v == JNum(k as real) || (k == 1 && v == JBool(true)))
  {
  }

  // ---------------------------------------------------------------------------
  // When the request succeeds

  /**
   * Once the body is read, the reply is the error 'Invalid quarter data' exactly
   * when the quarter gate stays shut; no other failure carries that text.
   */
  lemma InvalidQuarterExactly(rt: Runtime, a: Artifacts, body: map<string, Json>)
    requires ReadRequest(rt, body).Ok?
    ensures var req := ReadRequest(rt, body).value;
      Handle(rt, a, body) == Failure(InvalidQuarterData) <==> !GateOpen(req.currentQuarter, req.grades)
    ensures var req := ReadRequest(rt, body).value;
      (Handle(rt, a, body).Failure? && ErrorText(Handle(rt, a, body).error) == Some("Invalid quarter data"))
      <==> !GateOpen(req.currentQuarter, req.grades)
  {
  }

  /**
   * Once the body reads without error, a grade up to the current quarter that is
   * missing, falsy or reads as zero shuts the gate: the reply is "Invalid quarter
   * data". (A grade float() rejects fails the request first: see BadGradeFailsRequest.)
   */
  lemma UnenteredGradeShutsGate(rt: Runtime, a: Artifacts, body: map<string, Json>, k: int, i: nat)
    requires ReadRequest(rt, body).Ok? && QuarterNumber(body["currentQuarter"]) == Some(k) && i < k
    requires RequestKeys[i] !in body || !Truthy(body[RequestKeys[i]]) || ToFloat(rt, body[RequestKeys[i]]) == Some(0.0)
    ensures Handle(rt, a, body) == Failure(InvalidQuarterData)
  {
    var req := ReadRequest(rt, body).value;
    RequestGrade(rt, body, i);
    assert !Entered(req.grades[i]);
    InvalidQuarterExactly(rt, a, body);
  }

  /**
   * On success for a quarter k < 4, the reply's predictions and final grade are the
   * estimates from the known grades 1..k (see EstimateChains for how they are made).
   */
  lemma SuccessUsesEstimate(rt: Runtime, a: Artifacts, body: map<string, Json>, k: int)
    requires Handle(rt, a, body).Success? && QuarterNumber(body["currentQuarter"]) == Some(k)
    ensures ReadRequest(rt, body).Ok? && Predicted(rt, a, body).Ok?
    ensures GateOpen(ReadRequest(rt, body).value.currentQuarter, ReadRequest(rt, body).value.grades)
    ensures var req := ReadRequest(rt, body).value;
      var est := Estimate(a, k, Known(req.grades, k), req.section, req.gender);
      && est.Ok?
      && Predicted(rt, a, body).value.predicted == est.value.0
      && Predicted(rt, a, body).value.final == est.value.1
      && Handle(rt, a, body).response.predictedGrades == PredictedGrades(rt, k, est.value.0)
  {
  }

  /**
   * With the gate open on quarter k < 4, the request fails exactly when the final
   * predictor's features name a column that is neither one of quarters 1..k nor a
   * category column; it then fails with that feature list.
   */
  lemma MissingColumnsExactly(rt: Runtime, a: Artifacts, body: map<string, Json>, k: int)
    requires ReadRequest(rt, body).Ok?
    requires GateOpen(ReadRequest(rt, body).value.currentQuarter, ReadRequest(rt, body).value.grades)
    requires QuarterNumber(ReadRequest(rt, body).value.currentQuarter) == Some(k) && k < 4
    ensures var req := ReadRequest(rt, body).value;
      var available := QuarterColumnNames[..k] + Names(CategoryColumns(req.section, req.gender));
      Handle(rt, a, body).Success? <==> forall c :: c in FinalFeatures(a, k) ==> c in available
    ensures Handle(rt, a, body).Failure? ==> Handle(rt, a, body).error == MissingColumns(FinalFeatures(a, k))
  {
    var req := ReadRequest(rt, body).value;
    KnownFrameNames(Known(req.grades, k), req.section, req.gender);
  }

  /** A successful reply: the gate was open, so every grade up to the current quarter is among the entered grades. */
  lemma SuccessMeansGateOpen(rt: Runtime, a: Artifacts, body: map<string, Json>)
    requires Handle(rt, a, body).Success?
    ensures ReadRequest(rt, body).Ok? && QuarterNumber(body["currentQuarter"]).Some?
    ensures forall i :: 0 <= i < QuarterNumber(body["currentQuarter"]).value ==>
      ResponseKeys[i] in Handle(rt, a, body).response.enteredGrades
  {
    var req := ReadRequest(rt, body).value;
    EnteredAmongExactly(rt, req.grades, 4);
  }

  /** A successful reply reports the entered grades of the grades read from the body. */
  lemma SuccessReportsEntered(rt: Runtime, a: Artifacts, body: map<string, Json>)
    requires Handle(rt, a, body).Success?
    ensures ReadRequest(rt, body).Ok?
    ensures Handle(rt, a, body).response.enteredGrades == EnteredGrades(rt, ReadRequest(rt, body).value.grades)
  {
  }

  /** Grade i of the request is what reading key q(i+1) of the body gave. */
  lemma RequestGrade(rt: Runtime, body: map<string, Json>, i: nat)
    requires ReadRequest(rt, body).Ok? && i < 4
    ensures ReadGrade(rt, body, RequestKeys[i]).Ok?
    ensures ReadRequest(rt, body).value.grades[i] == ReadGrade(rt, body, RequestKeys[i]).value
  {
  }

  /** A truthy grade that float() reads as x stands in the request as x / 100. */
  lemma ReadGradeNormalises(rt: Runtime, body: map<string, Json>, i: nat, x: real)
    requires ReadRequest(rt, body).Ok? && i < 4
    requires RequestKeys[i] in body && Truthy(body[RequestKeys[i]]) && ToFloat(rt, body[RequestKeys[i]]) == Some(x)
    ensures ReadRequest(rt, body).value.grades[i] == Some(x / 100.0)
  {
    RequestGrade(rt, body, i);
  }

  /**
   * The entered grades of a successful reply: a grade is reported exactly when
   * the body gives it a truthy value that float() reads as nonzero, and it is
   * reported as that number rounded, the division by 100 undone.
   */
  lemma EnteredGradesEchoBody(rt: Runtime, a: Artifacts, body: map<string, Json>, i: nat, x: real)
    requires Handle(rt, a, body).Success? && i < 4
    requires RequestKeys[i] in body && Truthy(body[RequestKeys[i]]) && ToFloat(rt, body[RequestKeys[i]]) == Some(x)
    ensures ResponseKeys[i] in Handle(rt, a, body).response.enteredGrades <==> x != 0.0
    ensures x != 0.0 ==> Handle(rt, a, body).response.enteredGrades[ResponseKeys[i]] == rt.round2(x)
  {
    SuccessReportsEntered(rt, a, body);
    ReadGradeNormalises(rt, body, i, x);
    EnteredEcho(rt, ReadRequest(rt, body).value.grades, i, x);
  }

  /** A grade stored as x / 100 is among the entered grades exactly when x is nonzero, and then as round(x, 2). */
  lemma EnteredEcho(rt: Runtime, grades: seq<Option<real>>, i: nat, x: real)
    requires |grades| == 4 && i < 4 && grades[i] == Some(x / 100.0)
    ensures ResponseKeys[i] in EnteredGrades(rt, grades) <==> x != 0.0
    ensures x != 0.0 ==> EnteredGrades(rt, grades)[ResponseKeys[i]] == rt.round2(x)
  {
    assert x / 100.0 * 100.0 == x;
    EnteredAmongExactly(rt, grades, 4);
  }

  /** A grade the body leaves out or gives a falsy value is never among the entered grades. */
  lemma SkippedGradeNotEntered(rt: Runtime, a: Artifacts, body: map<string, Json>, i: nat)
    requires Handle(rt, a, body).Success? && i < 4
    requires RequestKeys[i] !in body || !Truthy(body[RequestKeys[i]])
    ensures ResponseKeys[i] !in Handle(rt, a, body).response.enteredGrades
  {
    SuccessReportsEntered(rt, a, body);
    var grades := ReadRequest(rt, body).value.grades;
    RequestGrade(rt, body, i);
    assert grades[i] == None;
    EnteredAmongExactly(rt, grades, 4);
  }

  /**
   * The shape of a successful reply for current quarter k: currentQuarter is echoed,
   * the quarters after k and only those are predicted, and the confidence is the
   * table's entry for k.
   */
  lemma SuccessfulReplyShape(rt: Runtime, a: Artifacts, body: map<string, Json>, k: int)
    requires Handle(rt, a, body).Success?
    requires "currentQuarter" in body && QuarterNumber(body["currentQuarter"]) == Some(k)
    ensures Handle(rt, a, body).response.currentQuarter == body["currentQuarter"]
    ensures forall i :: 0 <= i < 4 ==> (ResponseKeys[i] in Handle(rt, a, body).response.predictedGrades <==> k <= i)
    ensures forall key :: key in Handle(rt, a, body).response.predictedGrades ==> key in ResponseKeys
    ensures forall key :: key in Handle(rt, a, body).response.enteredGrades ==> key in ResponseKeys
    ensures Handle(rt, a, body).response.finalGrade.confidence == ConfidenceTable[k - 1]
  {
    var p := Predicted(rt, a, body).value;
    PredictedGradesExactly(rt, p.quarter, p.predicted);
    EnteredAmongExactly(rt, p.grades, 4);
  }

  /**
   * The final grade analysis of a response for the normalised final grade f and
   * class average avg: PASSED exactly when f is at least 0.75, the percentage,
   * class average and difference are rounded percents, and the label compares f
   * with the class average.
   */
  ghost predicate Judged(rt: Runtime, r: Response, f: real, avg: real) {
    && (r.finalGrade.status == Passed <==> f >= PassThreshold)
    && (r.finalGrade.status == AtRisk <==> f < PassThreshold)
    && r.finalGrade.percentage == rt.round2(f * 100.0)
    && r.comparison.classAverage == rt.round2(avg * 100.0)
    && r.comparison.difference == rt.round2(f * 100.0 - avg * 100.0)
    && (r.comparison.percentile == "Above Average" <==> f > avg)
    && (r.comparison.percentile == "Below Average" <==> f < avg)
    && (r.comparison.percentile == "Average" <==> f == avg)
  }

  /** The final grade analysis of a successful reply, judged on the unrounded final grade of its prediction. */
  lemma FinalGradeJudged(rt: Runtime, a: Artifacts, body: map<string, Json>)
    requires Handle(rt, a, body).Success?
    ensures Predicted(rt, a, body).Ok?
    ensures Judged(rt, Handle(rt, a, body).response, Predicted(rt, a, body).value.final, a.classAverageFinal)
  {
    var p := Predicted(rt, a, body).value;
    assert Handle(rt, a, body).response == Assemble(rt, a, body["currentQuarter"], p) by {
      assert Predicted(rt, a, body) == Ok(p);
    }
    AssembleRounds(rt, a, body["currentQuarter"], p);
  }

  /** The final grade analysis of a response, stated on the prediction it is assembled from. */
  lemma AssembleRounds(rt: Runtime, a: Artifacts, currentQuarter: Json, p: Prediction)
    requires WellShaped(p)
    ensures Judged(rt, Assemble(rt, a, currentQuarter, p), p.final, a.classAverageFinal)
  {
  }

  /**
   * In quarter 4 nothing is predicted and the final grade is the mean of the four
   * grades supplied in percent, so the status is PASSED exactly when they add up
   * to at least 300.
   */
  lemma FourthQuarterIsMean(rt: Runtime, a: Artifacts, body: map<string, Json>, x1: real, x2: real, x3: real, x4: real)
    requires Handle(rt, a, body).Success? && QuarterNumber(body["currentQuarter"]) == Some(4)
    requires ReadRequest(rt, body).Ok?
    requires ReadRequest(rt, body).value.grades == [Some(x1 / 100.0), Some(x2 / 100.0), Some(x3 / 100.0), Some(x4 / 100.0)]
    ensures Predicted(rt, a, body).Ok? && Predicted(rt, a, body).value.final == (x1 + x2 + x3 + x4) / 400.0
    ensures Handle(rt, a, body).response.predictedGrades == map[]
    ensures Handle(rt, a, body).response.finalGrade.status == Passed <==> x1 + x2 + x3 + x4 >= 300.0
  {
    var req := ReadRequest(rt, body).value;
    assert Known(req.grades, 4) == [x1 / 100.0, x2 / 100.0, x3 / 100.0, x4 / 100.0];
  }

  /**
   * An example of the status being judged on the unrounded final grade while the
   * percentage shown is rounded: a final grade of 74.999% shows as 75.0 when
   * round(74.999, 2) is 75.0, and is still AT RISK.
   */
  lemma StatusJudgesUnroundedGrade(rt: Runtime, a: Artifacts, currentQuarter: Json, p: Prediction)
    requires WellShaped(p) && p.final == 0.74999 && rt.round2(74.999) == 75.0
    ensures Assemble(rt, a, currentQuarter, p).finalGrade.percentage == 75.0
    ensures Assemble(rt, a, currentQuarter, p).finalGrade.status == AtRisk
  {
  }

  // ---------------------------------------------------------------------------
  // Entered and predicted quarters

  /** When no grade after the current quarter is supplied, entered and predicted quarters split Q1..Q4 between them. */
  lemma EnteredAndPredictedPartition(rt: Runtime, a: Artifacts, body: map<string, Json>, k: int)
    requires Handle(rt, a, body).Success?
    requires "currentQuarter" in body && QuarterNumber(body["currentQuarter"]) == Some(k)
    requires forall i :: k <= i < 4 ==> !Entered(ReadRequest(rt, body).value.grades[i])
    ensures var r := Handle(rt, a, body).response;
      forall i :: 0 <= i < 4 ==>
        (ResponseKeys[i] in r.enteredGrades <==> ResponseKeys[i] !in r.predictedGrades)
  {
    var p := Predicted(rt, a, body).value;
    PredictedGradesExactly(rt, p.quarter, p.predicted);
    EnteredAmongExactly(rt, p.grades, 4);
  }

  /** A grade supplied for a quarter after the current one is reported twice: entered and predicted. */
  lemma LaterGradeIsAlsoPredicted(rt: Runtime, a: Artifacts, body: map<string, Json>, k: int, i: nat)
    requires Handle(rt, a, body).Success?
    requires "currentQuarter" in body && QuarterNumber(body["currentQuarter"]) == Some(k)
    requires k <= i < 4 && Entered(ReadRequest(rt, body).value.grades[i])
    ensures ResponseKeys[i] in Handle(rt, a, body).response.enteredGrades
    ensures ResponseKeys[i] in Handle(rt, a, body).response.predictedGrades
  {
    var p := Predicted(rt, a, body).value;
    PredictedGradesExactly(rt, p.quarter, p.predicted);
    EnteredAmongExactly(rt, p.grades, 4);
  }

  /** Two requests that agree on everything but the grades after the current quarter get the same estimates. */
  lemma PredictionIgnoresLaterGrades(a: Artifacts, req: Request, other: Request, k: int)
    requires |req.grades| == 4 && |other.grades| == 4
    requires req.currentQuarter == other.currentQuarter && QuarterNumber(req.currentQuarter) == Some(k)
    requires req.section == other.section && req.gender == other.gender
    requires forall i :: 0 <= i < k ==> req.grades[i] == other.grades[i]
    ensures PredictionFor(a, req).Ok? <==> PredictionFor(a, other).Ok?
    ensures PredictionFor(a, req).Ok? ==>
      var p, q := PredictionFor(a, req).value, PredictionFor(a, other).value;
      p.quarter == q.quarter && p.predicted == q.predicted && p.final == q.final && p.confidence == q.confidence
  {
    assert GateOpen(req.currentQuarter, req.grades) <==> GateOpen(other.currentQuarter, other.grades);
    if GateOpen(req.currentQuarter, req.grades) {
      assert Known(req.grades, k) == Known(other.grades, k);
    }
  }

  /** A successful reply is the response assembled from the request's prediction. */
  lemma HandleAssembles(rt: Runtime, a: Artifacts, body: map<string, Json>)
    ensures Handle(rt, a, body).Success? <==> ReadRequest(rt, body).Ok? && PredictionFor(a, ReadRequest(rt, body).value).Ok?
    ensures Handle(rt, a, body).Success? ==>
      Handle(rt, a, body).response
        == Assemble(rt, a, body["currentQuarter"], PredictionFor(a, ReadRequest(rt, body).value).value)
  {
  }

  /**
   * Two bodies that both read without error and agree on currentQuarter, section,
   * gender and the grades up to the current quarter get the same verdict, and on
   * success the same predicted grades, final grade and comparison: later grades
   * matter only when float() rejects them (see BadGradeFailsRequest).
   */
  lemma OnlyKnownGradesMatter(rt: Runtime, a: Artifacts, body: map<string, Json>, other: map<string, Json>, k: int)
    requires ReadRequest(rt, body).Ok? && ReadRequest(rt, other).Ok?
    requires body["currentQuarter"] == other["currentQuarter"] && QuarterNumber(body["currentQuarter"]) == Some(k)
    requires body["section"] == other["section"] && body["gender"] == other["gender"]
    requires forall i :: 0 <= i < k ==> ReadRequest(rt, body).value.grades[i] == ReadRequest(rt, other).value.grades[i]
    ensures Handle(rt, a, body).Success? <==> Handle(rt, a, other).Success?
    ensures Handle(rt, a, body).Success? ==>
      var r, s := Handle(rt, a, body).response, Handle(rt, a, other).response;
      r.predictedGrades == s.predictedGrades && r.finalGrade == s.finalGrade && r.comparison == s.comparison
  {
    var req, oreq := ReadRequest(rt, body).value, ReadRequest(rt, other).value;
    PredictionIgnoresLaterGrades(a, req, oreq, k);
    HandleAssembles(rt, a, body);
    HandleAssembles(rt, a, other);
    if PredictionFor(a, req).Ok? {
      AssembleIgnoresGrades(rt, a, body["currentQuarter"], PredictionFor(a, req).value, PredictionFor(a, oreq).value);
    }
  }

  /** The predicted grades, final grade and comparison of a response do not look at the grades themselves. */
  lemma AssembleIgnoresGrades(rt: Runtime, a: Artifacts, currentQuarter: Json, p: Prediction, q: Prediction)
    requires WellShaped(p) && WellShaped(q)
    requires p.quarter == q.quarter && p.predicted == q.predicted && p.final == q.final && p.confidence == q.confidence
    ensures var r, s := Assemble(rt, a, currentQuarter, p), Assemble(rt, a, currentQuarter, q);
      r.predictedGrades == s.predictedGrades && r.finalGrade == s.finalGrade && r.comparison == s.comparison
  {
  }
}
