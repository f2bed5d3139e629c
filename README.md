# Surfer-count prediction core, modelled in Dafny

This project models the hybrid surfer-count prediction of the Eisbach tracker:

- the **rule-based factor calculator** (`calculateFactor`): additive
  adjustments for hour of day, water temperature, air temperature, weather
  condition and water level on a base of 1.0, clamped below at 0.5;
- the **baseline** (`basePredictionByHour`): the historical average for the
  hour, or 0 at night / 1 by day when it is missing or below 1;
- the **orchestrator** (`PredictSurferCountAdvanced`): the rule-based
  estimate `round(base * factor)` floored at 0, and the three outcomes of the
  ML call: ML success (source `"ml"`), a transient 429/503 failure (a
  degraded rule-based body *and* the error), any other failure (the error
  alone);
- the **MLError** record and its message `"ML HTTP <status>: <body>"`;
- the decision logic of the **Python ML service**: required-field checking,
  the warming-up reply (429 or 503, with a retry hint in body and header),
  and the predict route's readiness gate, water-level gate and non-negative
  count;
- the **contract between the two sides**: the statuses the service uses for
  warming up are exactly those the orchestrator treats as transient.

Files: `wrappers.dfy` (Option, Result), `decimal.dfy` (decimal rendering of
integers as Go's `%d` and Python's `str` produce it, with its inverse),
`ml_error.dfy`, `predict_factors.dfy`, `predict.dfy`, `ml_service.dfy`,
`service_contract.dfy`.

Modelling choices:

- Float64 values are exact reals. Equalities such as "factor = 1.7" hold in
  the model, not necessarily bit for bit in Go, where 0.3 and 0.8 are inexact.
- Optional readings are `Option<real>`; an absent reading is a different
  value from 0.
- The database query is represented by its outcome for the requested hour:
  an error, or an optional average (absent when no row matches).
- The ML adapter is a function parameter from the parameters it is sent to
  its outcome (a count with an explanation, or an error). Since it is a
  parameter, "not called" is stated as "its answer cannot change the result".
- `safeFloat` is not part of this model; it is taken to map an absent
  reading to 0 and a present one to its value.
- `math.Round` is rounding half away from zero. Python's `int` on a float is
  truncation toward zero.
- Go's `err.(*MLError)` type assertion is a match on `Predict.Error`
  (`MLFailure` or `OtherFailure`). The `map[string]any` bodies are the
  `Predict.Response` record, whose optional `notice` and `retryAfterSeconds`
  stand for the two keys that are present only in a degraded body.
- In the Python service, READY, "MODEL is not None" and the
  `USE_429_WHEN_NOT_READY` setting (true iff its lower-cased value is
  `"true"`) are boolean inputs. The request body is an optional mapping of
  names to numbers, where an absent body stands for one that is not JSON or is
  empty. Running the model is an input: it either raised (with a detail
  text) or gave a raw output and, when the model has coefficients, the
  per-feature contributions.

Behaviour reproduced as written: the air-temperature rule
(`go-server/surferdata/predict_factors.go:32`) skips a temperature of exactly 0.
Since `safeFloat` also turns an absent temperature into 0, a genuine reading of
0 degrees is handled as if it were missing and gets no cold-air penalty
(`Predict.FreezingReadingCountsAsAbsent`). The hour bands are applied to any
integer: neither `calculateFactor` nor `basePredictionByHour` checks that the
hour lies in 0..23.

## Model

| member | source | states |
|---|---|---|
| `Factors.CalculateFactor` | go-server/surferdata/predict_factors.go:8-60 | The step-by-step accumulation and clamp returns exactly the clamped sum of the five terms, whatever the water flow (flow does not occur in the result) |
| `Factors.TimeAdjustment` | go-server/surferdata/predict_factors.go:17-24 | +0.3 iff hour in 6..8, +0.2 iff 12..14, -0.8 iff hour >= 22 or <= 5, 0 iff 9..11 or 15..21: exactly one band applies |
| `Factors.WaterTempAdjustment` | go-server/surferdata/predict_factors.go:26-29 | An absent reading gives 0; the term is -0.2 iff a reading is present and below 10, otherwise 0 |
| `Factors.AirTempAdjustment` | go-server/surferdata/predict_factors.go:31-38 | 0 for exactly 0; +0.2 iff above 20; -0.3 iff below 5 and nonzero; 0 iff 0 or in 5..20 |
| `Factors.ConditionAdjustment` | go-server/surferdata/predict_factors.go:39-42 | -0.3 iff the code is 61 or 71, 0 for every other code |
| `Factors.WaterLevelAdjustment` | go-server/surferdata/predict_factors.go:44-49 | -0.3 iff level below 140, +0.2 iff above 145, 0 iff in [140, 145] |
| `Factors.RawFactor` | go-server/surferdata/predict_factors.go:15-49 | The unclamped factor lies between -0.9 and 1.7 |
| `Factors.Factor` | go-server/surferdata/predict_factors.go:54-59 | The result lies in [0.5, 1.7]; it equals the unclamped sum when that is at least 0.5 and is exactly 0.5 otherwise |
| `Factors.AllNegativeAdjustmentsClampToFloor` | go-server/surferdata/predict_factors.go:54-57 | Night, cold water, cold air, rain and low water sum to -0.9 and clamp to exactly 0.5 |
| `Factors.CeilingIsReached` | go-server/surferdata/predict_factors.go:15-49 | Morning, warm air and high water give the maximum 1.7 |
| `Predict.BasePredictionByHour` | go-server/surferdata/predict.go:20-41 | A query error is returned unchanged; a missing or sub-1 average gives 0 at night and 1 by day; an average of at least 1 is returned as is; every baseline is 0 (only at night) or at least 1 |
| `Predict.RoundHalfAwayFromZero` | go-server/surferdata/predict.go:54 | The nearest integer, with halves rounded away from zero |
| `Predict.RuleBasedPrediction` | go-server/surferdata/predict.go:54-57 | Never negative; the nearest integer to base * factor when that product is non-negative, and 0 when it is not positive |
| `Predict.RuleBasedEstimate` | go-server/surferdata/predict.go:49-57 | The rule-based estimate of a request is non-negative and is 0 for a baseline of 0 |
| `Predict.MLParamsHideFlowAndAbsence` | go-server/surferdata/predict.go:59-65 | The water flow never reaches the ML service and never changes the outcome; an absent water or air temperature reaches the ML service exactly like a reading of 0 |
| `Predict.PredictSurferCountAdvanced` | go-server/surferdata/predict.go:43-102 | Baseline error: no body, same error. ML success: ML count and explanation, not degraded, source "ml", no error. 429/503 MLError: rule-based count, empty explanation, degraded, fixed notice, source "rule_based_fallback", retry hint present iff the error has one and equal to it, and the error alongside. Other failures: no body, same error. Every body echoes the request's context; a body is degraded iff an error accompanies it |
| `Predict.BaselineFailureSkipsML` | go-server/surferdata/predict.go:44-47 | When the baseline query fails, the ML service's answer cannot change the outcome |
| `Predict.AbsentHintDiffersFromZero` | go-server/surferdata/predict.go:82-84 | A missing retry hint and a hint of 0 produce different degraded bodies |
| `Predict.FreezingReadingCountsAsAbsent` | go-server/surferdata/predict.go:49-53 | An air reading of 0 gives the same estimate as no reading, while 0.5 counts as cold air |
| `Predict.BaselineFallbackExamples` | go-server/surferdata/predict.go:32-38 | With no matching rows, hour 3 gets baseline 0 and hour 10 gets baseline 1 |
| `Predict.RuleBasedExamples` | go-server/surferdata/predict.go:54-57 | Base 10 with factor 1.5 gives 15; base 0 gives 0 for any factor |
| `MLErrors.Message` | go-server/surferdata/ml_error.go:11 | The message starts with "ML HTTP " and ends with the body verbatim |
| `MLErrors.MessageRoundTrip` | go-server/surferdata/ml_error.go:11 | Parsing a message gives back exactly the status and body it was made from |
| `MLErrors.MessageInjective` | go-server/surferdata/ml_error.go:11 | Two errors with the same message have the same status and body |
| `MLErrors.MessageIgnoresRetryHint` | go-server/surferdata/ml_error.go:5-11 | The message does not depend on the retry hint |
| `Decimal.IntToDecimal` | go-server/surferdata/ml_error.go:11 | The decimal text of a status is non-empty, made of digits and a leading '-' exactly for negative numbers, with no leading zero (a first digit of '0' only for 0 itself) |
| `Decimal.ParseIntToDecimal` | ml-model/app.py:43 | Reading back a rendered integer gives that integer, so a Retry-After header can be read back as the number it was made from |
| `MLService.NotReadyResponse` | ml-model/app.py:30-44 | A warming-up reply; status 429 iff asked for, 503 otherwise; the body's retry_after_seconds equals the argument and the Retry-After header reads back as the same number |
| `MLService.Missing` | ml-model/app.py:47 | A name is in the missing list iff it is requested and not a key of the data |
| `MLService.MissingOfConcat` | ml-model/app.py:47 | The missing list of concatenated requests is the concatenation of their missing lists, so the requested order is kept |
| `MLService.RequireFields` | ml-model/app.py:46-49 | Nothing iff every requested field is a key; otherwise a 400 whose message is "Missing fields: " followed by the missing names joined with ", " |
| `MLService.MissingFieldsExample` | ml-model/app.py:46-49 | A request with only hour and air_temp gets "Missing fields: water_temp, water_level" |
| `MLService.TruncateTowardZero` | ml-model/app.py:99 | Python's int on a float: the integer between 0 and the value that is less than 1 away from it |
| `MLService.Predict` | ml-model/app.py:70-114 | Not ready: the 5-second warming-up reply whatever the request; warming-up iff not ready; a 400 iff a required field is missing, and then exactly the `require_fields` reply with its "Missing fields: " message; water level below 130: count 0 and all five explanation entries 0.0; at or above: the truncated output raised to 0 with the model's contributions, or a 500 when the model raises; the count is never negative |
| `ServiceContract.WarmUpStatusesAreTransient` | ml-model/app.py:70-114 | A reply of the predict route has status 429 or 503 iff it is a warming-up reply |
| `ServiceContract.EveryTransientStatusIsSent` | ml-model/app.py:32 | Both 429 and 503 are sent, each for one value of the 429 setting |
| `ServiceContract.ServiceFailureHandling` | go-server/surferdata/predict.go:66-89 | A failure reply of the service, turned into an MLError with its status, yields a degraded body iff it was a warming-up reply, and the error is returned in every case |

## Left out

- The SQL query (`go-server/surferdata/predict.go:22-25`) and the database handle: only their outcome, an error or an optional average, is modelled.
- `PredictSurferCountML` and `safeFloat` are not part of this model: the ML call is an abstract outcome, and `safeFloat` is taken to map an absent reading to 0.
- How the ML adapter builds an MLError from an HTTP reply (its body and Retry-After parsing) is not part of this model; `ServiceContract.ServiceFailureHandling` only assumes that it keeps the status.
- `conditions.WeatherData` is external: only its `Temp` and `Condition` fields are modelled.
- Float64 rounding: reals are exact. The conversion `int(...)` of a rounded float that does not fit in 64 bits is not modelled.
- `map[string]any` and `interface{}` results: replaced by the `Response` record; JSON encoding is left out.
- Flask routing and JSON (de)serialisation, `joblib` loading, the background loading thread and its globals (`ml-model/app.py:12-27`), the `/` and `/health` routes, `MODEL.predict`, and the pandas and coefficient products (`ml-model/app.py:90`, `98-107`): the model's run is an input.
- Request bodies whose values are not numbers, or that are JSON but not an object, are not modelled; Python's comparison errors on such values are not represented.
- `MLService.Predict`: the 500 reply for an exception is modelled only as coming from the model's run; other exceptions (for example a non-numeric water level) are not represented.
- `context.Background`, cancellation, and the HTTP layer that turns outcomes into statuses and headers are out of scope.
