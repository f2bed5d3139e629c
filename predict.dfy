/**
 * The prediction orchestrator: a baseline from the historical average for
 * the hour, the rule-based estimate round(base * factor) floored at 0, and
 * the choice between the ML prediction, a degraded rule-based body for a
 * transient ML failure (status 429 or 503), and a plain failure.
 *
 * The database query is represented by its outcome for the requested hour;
 * the ML adapter by a function from the parameters it is sent to its outcome.
 */
module Predict {
  import opened Wrappers
  import opened MLErrors
  import Factors

  /** A request for a prediction; absent readings are distinct from 0. */
  datatype PredictionParams = PredictionParams(
    hour: int,
    waterTemp: Option<real>,
    airTemp: Option<real>,
    weatherCondition: int,
    waterLevel: real,
    waterFlow: real)

  /** An error value: the ML adapter's typed error, or any other error. */
  datatype Error = MLFailure(ml: MLError) | OtherFailure(message: string)

  /** The outcome of the average-count query: an error, or the average (absent when no row matches). */
  datatype AverageQuery = QueryFailed(err: Error) | QueryRows(avg: Option<real>)

  /** What the ML adapter is sent: optional readings already replaced by numbers. */
  datatype MLPredictionParams = MLPredictionParams(
    hour: int,
    waterTemp: real,
    airTemp: real,
    waterLevel: real,
    weatherCondition: int)

  /** What the ML adapter returns: a count with its per-factor explanation, or an error. */
  datatype MLOutcome = MLSuccess(prediction: int, explanation: map<string, real>) | MLFailed(err: Error)

  /** The response body; `notice` and `retryAfterSeconds` are the two conditional keys. */
  datatype Response = Response(
    hour: int,
    waterTemperature: real,
    airTemperature: real,
    weatherCondition: int,
    waterLevel: real,
    prediction: int,
    explanation: map<string, real>,
    degraded: bool,
    notice: Option<string>,
    source: string,
    retryAfterSeconds: Option<int>)

  /** A body, an error, or (for a transient ML failure) both. */
  datatype Outcome = Outcome(body: Option<Response>, err: Option<Error>)

  const SourceML := "ml"
  const SourceFallback := "rule_based_fallback"
  const WakingUpNotice := "Model is waking up (Render free tier). Showing fallback estimate."

  /** `safeFloat`, which is not part of this model, is taken to map an absent reading to 0. */
  function SafeFloat(x: Option<real>): real {
    x.GetOr(0.0)
  }

  /** The statuses with which the ML service reports that it is still warming up. */
  predicate IsTransientStatus(status: int) {
    status == 429 || status == 503
  }

  /** The orchestrator's classification: only an MLError with a warming-up status is transient. */
  predicate IsTransient(err: Error) {
    err.MLFailure? && IsTransientStatus(err.ml.status)
  }

  /** `basePredictionByHour`: the average, or 0 at night and 1 by day when it is absent or below 1. */
  function BasePredictionByHour(hour: int, query: AverageQuery): (r: Result<real, Error>)
    ensures r.Failure? <==> query.QueryFailed?
    ensures r.Failure? ==> r.error == query.err
    ensures query.QueryRows? && (query.avg.None? || query.avg.value < 1.0) ==>
      r == Success(if Factors.IsNightHour(hour) then 0.0 else 1.0)
    ensures query.QueryRows? && query.avg.Some? && query.avg.value >= 1.0 ==> r == Success(query.avg.value)
    ensures r.Success? ==> r.value == 0.0 || r.value >= 1.0
    ensures r.Success? && r.value == 0.0 ==> Factors.IsNightHour(hour)
  {
    match query
    case QueryFailed(err) => Failure(err)
    case QueryRows(avg) =>
      if avg.None? || avg.value < 1.0 then
        if Factors.IsNightHour(hour) then Success(0.0) else Success(1.0)
      else Success(avg.value)
  }

  /** `math.Round`: the nearest integer, halves away from zero. */
  function RoundHalfAwayFromZero(x: real): (n: int)
    ensures x >= 0.0 ==> n as real - 0.5 <= x < n as real + 0.5
    ensures x < 0.0 ==> n as real - 0.5 < x <= n as real + 0.5
  {
    if x >= 0.0 then (x + 0.5).Floor else -((-x + 0.5).Floor)
  }

  /** round(base * factor), raised to 0 when negative. */
  function RuleBasedPrediction(base: real, factor: real): (n: int)
    ensures n >= 0
    ensures base * factor >= 0.0 ==> n as real - 0.5 <= base * factor < n as real + 0.5
    ensures base * factor <= 0.0 ==> n == 0
  {
    var rounded := RoundHalfAwayFromZero(base * factor);
    if rounded < 0 then 0 else rounded
  }

  /** The weather record the calculator is given: the air temperature through `safeFloat`. */
  function WeatherOf(params: PredictionParams): Factors.WeatherData {
    Factors.WeatherData(SafeFloat(params.airTemp), params.weatherCondition)
  }

  /** The rule-based estimate for a request with the given baseline. */
  function RuleBasedEstimate(params: PredictionParams, base: real): (n: int)
    ensures n >= 0
    ensures base == 0.0 ==> n == 0
  {
    RuleBasedPrediction(base, Factors.Factor(params.hour, params.waterTemp, WeatherOf(params), params.waterLevel))
  }

  /** `mlParams`: what the ML service is sent for a request (see `MLParamsHideFlowAndAbsence`). */
  function MLParamsOf(params: PredictionParams): MLPredictionParams
  {
    MLPredictionParams(params.hour, SafeFloat(params.waterTemp), SafeFloat(params.airTemp), params.waterLevel, params.weatherCondition)
  }

  /** The five context keys every body echoes from the request. */
  predicate EchoesParams(r: Response, params: PredictionParams) {
    && r.hour == params.hour
    && r.waterTemperature == SafeFloat(params.waterTemp)
    && r.airTemperature == SafeFloat(params.airTemp)
    && r.weatherCondition == params.weatherCondition
    && r.waterLevel == params.waterLevel
  }

  function BodyFor(params: PredictionParams, prediction: int, explanation: map<string, real>,
                   degraded: bool, notice: Option<string>, source: string, retry: Option<int>): Response
  {
    Response(params.hour, SafeFloat(params.waterTemp), SafeFloat(params.airTemp), params.weatherCondition,
             params.waterLevel, prediction, explanation, degraded, notice, source, retry)
  }

  /** `PredictSurferCountAdvanced`. */
  function PredictSurferCountAdvanced(params: PredictionParams, query: AverageQuery,
                                      callML: MLPredictionParams -> MLOutcome): (out: Outcome)
    // A failed baseline query is returned as it is, with no body.
    ensures query.QueryFailed? ==> out == Outcome(None, Some(query.err))
    // ML success: the ML count and explanation, not degraded, source "ml", no error.
    ensures query.QueryRows? && callML(MLParamsOf(params)).MLSuccess? ==>
      var ml := callML(MLParamsOf(params));
      && out.err.None? && out.body.Some?
      && out.body.value.prediction == ml.prediction
      && out.body.value.explanation == ml.explanation
      && !out.body.value.degraded && out.body.value.source == SourceML
      && out.body.value.notice.None? && out.body.value.retryAfterSeconds.None?
    // Transient ML failure: the rule-based estimate in a degraded body, and the error beside it.
    ensures query.QueryRows? && callML(MLParamsOf(params)).MLFailed? && IsTransient(callML(MLParamsOf(params)).err) ==>
      var err := callML(MLParamsOf(params)).err;
      && out.err == Some(err) && out.body.Some?
      && out.body.value.prediction == RuleBasedEstimate(params, BasePredictionByHour(params.hour, query).value)
      && out.body.value.explanation == map[]
      && out.body.value.degraded && out.body.value.source == SourceFallback
      && out.body.value.notice == Some(WakingUpNotice)
      && out.body.value.retryAfterSeconds == err.ml.retryAfterSeconds
    // Any other ML failure: no body, the error unchanged.
    ensures query.QueryRows? && callML(MLParamsOf(params)).MLFailed? && !IsTransient(callML(MLParamsOf(params)).err) ==>
      out == Outcome(None, Some(callML(MLParamsOf(params)).err))
    // Whatever the branch: a body echoes the request, and is degraded exactly when an error comes with it.
    ensures out.body.Some? ==> EchoesParams(out.body.value, params)
    ensures out.body.Some? ==> (out.body.value.degraded <==> out.err.Some?)
    ensures out.body.Some? || out.err.Some?
    ensures out.body.Some? && out.err.Some? ==> IsTransient(out.err.value)
  {
    match BasePredictionByHour(params.hour, query)
    case Failure(err) => Outcome(None, Some(err))
    case Success(base) =>
      var ruleBased := RuleBasedEstimate(params, base);
      match callML(MLParamsOf(params))
      case MLSuccess(prediction, explanation) =>
        Outcome(Some(BodyFor(params, prediction, explanation, false, None, SourceML, None)), None)
      case MLFailed(err) =>
        if IsTransient(err) then
          Outcome(Some(BodyFor(params, ruleBased, map[], true, Some(WakingUpNotice), SourceFallback,
                               err.ml.retryAfterSeconds)), Some(err))
        else Outcome(None, Some(err))
  }

  /** When the baseline query fails the ML service is not consulted: its answer cannot matter. */
  lemma BaselineFailureSkipsML(params: PredictionParams, query: AverageQuery,
                               callML: MLPredictionParams -> MLOutcome, otherML: MLPredictionParams -> MLOutcome)
    requires query.QueryFailed?
    ensures PredictSurferCountAdvanced(params, query, callML) == PredictSurferCountAdvanced(params, query, otherML)
  {
  }

  /**
   * The ML service never sees the water flow, and an absent temperature
   * reaches it exactly as a reading of 0 would; the whole outcome is
   * independent of the flow.
   */
  lemma MLParamsHideFlowAndAbsence(params: PredictionParams, flow: real, query: AverageQuery,
                                   callML: MLPredictionParams -> MLOutcome)
    ensures MLParamsOf(params.(waterFlow := flow)) == MLParamsOf(params)
    ensures MLParamsOf(params.(waterTemp := None)) == MLParamsOf(params.(waterTemp := Some(0.0)))
    ensures MLParamsOf(params.(airTemp := None)) == MLParamsOf(params.(airTemp := Some(0.0)))
    ensures PredictSurferCountAdvanced(params.(waterFlow := flow), query, callML)
         == PredictSurferCountAdvanced(params, query, callML)
  {
  }

  /** An absent hint and a hint of 0 give different degraded bodies. */
  lemma AbsentHintDiffersFromZero(params: PredictionParams, avg: Option<real>, status: int, body: string)
    requires IsTransientStatus(status)
    ensures var noHint := MLFailed(MLFailure(MLError(status, body, None)));
            var zeroHint := MLFailed(MLFailure(MLError(status, body, Some(0))));
            PredictSurferCountAdvanced(params, QueryRows(avg), _ => noHint).body
            != PredictSurferCountAdvanced(params, QueryRows(avg), _ => zeroHint).body
  {
  }

  /**
   * Because `safeFloat` turns an absent air temperature into 0 and the
   * calculator reads 0 as "no signal", a genuine reading of 0 degrees is
   * treated exactly like a missing one, while 0.5 degrees counts as cold air.
   */
  lemma FreezingReadingCountsAsAbsent(params: PredictionParams, base: real)
    ensures RuleBasedEstimate(params.(airTemp := Some(0.0)), base) == RuleBasedEstimate(params.(airTemp := None), base)
    ensures Factors.AirTempAdjustment(WeatherOf(params.(airTemp := Some(0.0))).temp) == 0.0
    ensures Factors.AirTempAdjustment(WeatherOf(params.(airTemp := Some(0.5))).temp) == -0.3
  {
  }

  /** With no history, hour 3 gets baseline 0 and hour 10 gets baseline 1. */
  lemma BaselineFallbackExamples()
    ensures BasePredictionByHour(3, QueryRows(None)) == Success(0.0)
    ensures BasePredictionByHour(10, QueryRows(None)) == Success(1.0)
  {
  }

  /** base 10 with factor 1.5 gives 15; base 0 gives 0 whatever the factor. */
  lemma RuleBasedExamples(factor: real)
    ensures RuleBasedPrediction(10.0, 1.5) == 15
    ensures RuleBasedPrediction(0.0, factor) == 0
  {
  }
}
