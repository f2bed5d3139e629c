/**
 * The contract between the two sides: the statuses with which the Python
 * service says it is warming up are exactly the statuses the Go
 * orchestrator treats as transient.
 */
module ServiceContract {
  import opened Wrappers
  import opened MLErrors
  import MLService
  import Predict

  /** Of all the replies of the predict route, exactly the warming-up ones carry a transient status. */
  lemma WarmUpStatusesAreTransient(ready: bool, modelLoaded: bool, use429: bool,
                                   request: Option<map<string, real>>, run: MLService.ModelRun)
    ensures var reply := MLService.Predict(ready, modelLoaded, use429, request, run);
            Predict.IsTransientStatus(reply.Status()) <==> reply.WarmingUp?
  {
  }

  /** Each transient status is one the service can send, chosen by its 429 setting. */
  lemma EveryTransientStatusIsSent(status: int, ready: bool)
    requires Predict.IsTransientStatus(status)
    ensures MLService.NotReadyResponse(status == 429, MLService.DefaultRetrySeconds, ready).Status() == status
  {
  }

  /**
   * When a failure reply of the service reaches the orchestrator as an
   * MLError with the same status, the orchestrator returns a degraded body
   * exactly for the warming-up replies, and returns the error in every case.
   */
  lemma ServiceFailureHandling(params: Predict.PredictionParams, avg: Option<real>,
                               ready: bool, modelLoaded: bool, use429: bool,
                               request: Option<map<string, real>>, run: MLService.ModelRun,
                               body: string, hint: Option<int>)
    requires !MLService.Predict(ready, modelLoaded, use429, request, run).Prediction?
    ensures var reply := MLService.Predict(ready, modelLoaded, use429, request, run);
            var e := Predict.MLFailure(MLError(reply.Status(), body, hint));
            var out := Predict.PredictSurferCountAdvanced(params, Predict.QueryRows(avg), _ => Predict.MLFailed(e));
            (out.body.Some? <==> reply.WarmingUp?) && out.err == Some(e)
  {
  }
}
