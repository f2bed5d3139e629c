/**
 * The decision logic of the Python prediction service: required-field
 * checking, the warming-up reply with its retry hint, and the water-level
 * gate and non-negative count of the predict route. READY, MODEL and the
 * USE_429_WHEN_NOT_READY setting are booleans; the model's run is an input.
 */
module MLService {
  import opened Wrappers
  import Decimal

  /** The "error" object of an error reply. */
  datatype ErrorBody = ErrorBody(code: int, message: string, detail: Option<string>)

  /** A reply of the service: its JSON body, with the status and headers it carries. */
  datatype Reply =
    | WarmingUp(error: ErrorBody, ready: bool, hint: string, retryAfterSeconds: int, retryAfterHeader: string)
    | Failed(error: ErrorBody)
    | Prediction(surferCount: int, explanation: map<string, real>)
  {
    /** Error replies are sent with the status of their "code"; a prediction with 200. */
    function Status(): int {
      match this
      case WarmingUp(error, _, _, _, _) => error.code
      case Failed(error) => error.code
      case Prediction(_, _) => 200
    }
  }

  /** What running the model yields: an exception, or its raw output and, when the model has coefficients, the contributions. */
  datatype ModelRun = Raised(detail: string) | Ran(raw: real, contributions: Option<map<string, real>>)

  const WakingUpMessage := "Prediction service is waking up (cold start). Please retry shortly."
  const WakingUpHint := "This often happens on Render free tier right after spin-up."
  const DefaultRetrySeconds := 5
  const MissingFieldsPrefix := "Missing fields: "
  const ComputeFailedMessage := "Could not compute prediction"
  const RequiredFields: seq<string> := ["hour", "water_temp", "air_temp", "water_level"]
  const ExplanationKeys: seq<string> := ["hour", "water_temp", "air_temp", "water_level", "weather_condition"]
  const MinWaterLevel: real := 130.0

  /** The explanation sent when the model is not consulted: 0.0 for each of the five features. */
  const ZeroExplanation: map<string, real> := map k | k in ExplanationKeys :: 0.0

  /** `not_ready_response`: 429 when asked for, 503 otherwise, and the retry hint in body and header. */
  function NotReadyResponse(use429: bool, retrySeconds: int, ready: bool): (r: Reply)
    ensures r.WarmingUp? && r.ready == ready
    ensures r.Status() == 429 <==> use429
    ensures r.Status() == 503 <==> !use429
    ensures r.retryAfterSeconds == retrySeconds
    ensures Decimal.ParseDecimal(r.retryAfterHeader) == Some(r.retryAfterSeconds)
  {
    Decimal.ParseIntToDecimal(retrySeconds);
    var status := if use429 then 429 else 503;
    WarmingUp(ErrorBody(status, WakingUpMessage, None), ready, WakingUpHint, retrySeconds,
              Decimal.IntToDecimal(retrySeconds))
  }

  /** The requested fields that are not keys of the data, in the order requested. */
  function Missing(keys: set<string>, fields: seq<string>): (m: seq<string>)
    ensures forall f :: f in m <==> f in fields && f !in keys
    ensures |m| <= |fields|
  {
    if fields == [] then []
    else
      var rest := Missing(keys, fields[1..]);
      if fields[0] in keys then rest else [fields[0]] + rest
  }

  /** `', '.join(items)` with any separator. */
  function Join(items: seq<string>, sep: string): string {
    if items == [] then ""
    else if |items| == 1 then items[0]
    else items[0] + sep + Join(items[1..], sep)
  }

  /** `require_fields`: nothing when every field is present, else a 400 naming the missing ones. */
  function RequireFields(data: map<string, real>, fields: seq<string>): (r: Option<Reply>)
    ensures r.None? <==> forall f :: f in fields ==> f in data
    ensures r.Some? ==> r.value.Failed? && r.value.Status() == 400
    ensures r.Some? ==> r.value.error.message == MissingFieldsPrefix + Join(Missing(data.Keys, fields), ", ")
  {
    var missing := Missing(data.Keys, fields);
    if missing != [] then
      assert missing[0] in missing;
      Some(Failed(ErrorBody(400, MissingFieldsPrefix + Join(missing, ", "), None)))
    else None
  }

  /** Python's `int` on a float: truncation toward zero. */
  function TruncateTowardZero(x: real): (n: int)
    ensures x >= 0.0 ==> n as real <= x < n as real + 1.0
    ensures x < 0.0 ==> n as real - 1.0 < x <= n as real
  {
    if x >= 0.0 then x.Floor else -((-x).Floor)
  }

  /** `request.get_json(silent=True) or {}`: a body that is absent or not JSON is the empty mapping. */
  function RequestData(request: Option<map<string, real>>): map<string, real> {
    request.GetOr(map[])
  }

  predicate HasRequiredFields(data: map<string, real>) {
    forall f :: f in RequiredFields ==> f in data
  }

  /** The route `predict`. */
  function Predict(ready: bool, modelLoaded: bool, use429: bool, request: Option<map<string, real>>, run: ModelRun): (r: Reply)
    // Not ready: the warming-up reply with a 5-second hint, whatever the request holds.
    ensures !ready || !modelLoaded ==> r == NotReadyResponse(use429, DefaultRetrySeconds, ready)
    ensures r.WarmingUp? <==> !ready || !modelLoaded
    // Ready: a 400 exactly when a required field is missing.
    ensures ready && modelLoaded ==> (r.Status() == 400 <==> !HasRequiredFields(RequestData(request)))
    ensures ready && modelLoaded && !HasRequiredFields(RequestData(request)) ==>
      Some(r) == RequireFields(RequestData(request), RequiredFields)
    // Below the threshold level: no surfers and an all-zero explanation, the model not consulted.
    ensures ready && modelLoaded && HasRequiredFields(RequestData(request)) ==>
      "water_level" in RequestData(request) &&
      (RequestData(request)["water_level"] < MinWaterLevel ==> r == Prediction(0, ZeroExplanation))
    // At or above it: the truncated model output raised to 0, or a 500 when the model raises.
    ensures ready && modelLoaded && HasRequiredFields(RequestData(request)) ==>
      "water_level" in RequestData(request) &&
      (RequestData(request)["water_level"] >= MinWaterLevel ==>
        match run
        case Raised(detail) => r == Failed(ErrorBody(500, ComputeFailedMessage, Some(detail)))
        case Ran(raw, contributions) =>
          r.Prediction? && r.explanation == contributions.GetOr(ZeroExplanation)
          && (raw >= 0.0 ==> r.surferCount as real <= raw < r.surferCount as real + 1.0)
          && (raw < 1.0 ==> r.surferCount == 0))
    ensures r.Prediction? ==> r.surferCount >= 0
    ensures r.Failed? ==> r.Status() == 400 || r.Status() == 500
  {
    if !ready || !modelLoaded then
      NotReadyResponse(use429, DefaultRetrySeconds, ready)
    else
      var data := RequestData(request);
      match RequireFields(data, RequiredFields)
      case Some(missingReply) => missingReply
      case None =>
        if data["water_level"] >= MinWaterLevel then
          match run
          case Raised(detail) => Failed(ErrorBody(500, ComputeFailedMessage, Some(detail)))
          case Ran(raw, contributions) =>
            var truncated := TruncateTowardZero(raw);
            Prediction(if truncated < 0 then 0 else truncated, contributions.GetOr(ZeroExplanation))
        else Prediction(0, ZeroExplanation)
  }

  /** Missing distributes over concatenation: the order of the requested fields is kept. */
  lemma {:induction false} MissingOfConcat(keys: set<string>, a: seq<string>, b: seq<string>)
    ensures Missing(keys, a + b) == Missing(keys, a) + Missing(keys, b)
  {
    if a == [] {
      assert a + b == b;
    } else {
      assert (a + b)[1..] == a[1..] + b;
      MissingOfConcat(keys, a[1..], b);
    }
  }

  /** A request with only the hour and air temperature names the other two fields, in order. */
  lemma MissingFieldsExample()
    ensures RequireFields(map["hour" := 7.0, "air_temp" := 21.0], RequiredFields)
         == Some(Failed(ErrorBody(400, MissingFieldsPrefix + "water_temp, water_level", None)))
  {
    var data := map["hour" := 7.0, "air_temp" := 21.0];
    assert |"water_temp"| == 10 && |"water_level"| == 11 && |"hour"| == 4 && |"air_temp"| == 8;
    assert data.Keys == {"hour", "air_temp"};
    MissingWaterFields(data.Keys);
    assert Join(["water_temp", "water_level"], ", ") == "water_temp, water_level";
  }

  lemma MissingWaterFields(keys: set<string>)
    requires "hour" in keys && "air_temp" in keys && "water_temp" !in keys && "water_level" !in keys
    ensures Missing(keys, RequiredFields) == ["water_temp", "water_level"]
  {
    var fields := RequiredFields;
    assert fields[1..][1..][1..] == ["water_level"];
    assert Missing(keys, fields[1..][1..][1..]) == ["water_level"];
    assert Missing(keys, fields[1..][1..]) == ["water_level"];
    assert Missing(keys, fields[1..]) == ["water_temp", "water_level"];
  }
}
