/** The availability gate every engine-backed route depends on
    (src/api/utils/dependencies.py). */
module Dependencies {
  import opened Common
  import opened Engine

  /** `app.state.engine`: never assigned, or assigned an engine or None. */
  datatype EngineSlot = Unset | Assigned(engine: Option<InferenceEngine>)

  predicate Available(slot: EngineSlot)
  {
    slot.Assigned? && slot.engine.Some?
  }

  const NotAvailableDetail := "Inference engine is not available or not yet initialized."
  const NotFoundLog := "Inference engine dependency requested but not found in app state."

  /** The dependency's result and the error lines it logs. */
  datatype Gate = Gate(result: Outcome<InferenceEngine>, errorLogs: seq<string>)

  /** `get_inference_engine` (lines 8-24): the stored engine itself when there
      is one; otherwise HTTP 503, and only then an error is logged. */
  function GetInferenceEngine(slot: EngineSlot): (g: Gate)
    ensures g.result.Ok? <==> Available(slot)
    ensures g.result.Ok? ==> g.result.value == slot.engine.value && g.errorLogs == []
    ensures g.result.Raise? ==> g.result.exc == HttpException(503, NotAvailableDetail) && g.errorLogs == [NotFoundLog]
  {
    if !slot.Assigned? || slot.engine.None? then
      Gate(Raise(HttpException(503, NotAvailableDetail)), [NotFoundLog])
    else Gate(Ok(slot.engine.value), [])
  }
}
