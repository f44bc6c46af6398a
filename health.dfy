/** The health check (src/api/endpoints/health.py). */
module Health {
  import opened Common
  import opened Dependencies

  /** `health_check` (lines 7-14): always answers, with exactly the keys
      "status" ("ok") and "engine_status". */
  function HealthCheck(slot: EngineSlot): (body: map<string, string>)
    ensures body.Keys == {"status", "engine_status"}
    ensures body["status"] == "ok"
    ensures body["engine_status"] == (if Available(slot) then "available" else "unavailable")
  {
    map["status" := "ok", "engine_status" := if Available(slot) then "available" else "unavailable"]
  }

  /** The health check reports "available" exactly when the dependency gate
      lets requests through, and "unavailable" exactly when it answers 503. */
  lemma HealthAgreesWithGate(slot: EngineSlot)
    ensures HealthCheck(slot)["engine_status"] == "available" <==> GetInferenceEngine(slot).result.Ok?
    ensures HealthCheck(slot)["engine_status"] == "unavailable" <==>
              GetInferenceEngine(slot).result == Raise(HttpException(503, NotAvailableDetail))
  {
  }
}
