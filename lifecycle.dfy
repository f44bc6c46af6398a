/** Application lifespan and the catch-all error handler (main.py). */
module Lifecycle {
  import opened Common
  import opened Settings
  import opened Runtime
  import Loader
  import opened Engine
  import opened Dependencies

  const StartupFailure := "Failed to initialize model engine during startup."

  /** The slot startup leaves behind, given what loading gave. */
  function SlotAfterStartup(settings: AppSettings, loaded: Outcome<Loader.Loaded>): EngineSlot
  {
    if loaded.Ok? then Assigned(Some(FromLoaded(settings, loaded.value))) else Assigned(None)
  }

  /** The slot shutdown leaves behind (lines 47-50). */
  function SlotAfterShutdown(slot: EngineSlot): (after: EngineSlot)
    ensures Available(slot) ==> after == Unset
    ensures !Available(slot) ==> after == slot
  {
    if slot.Assigned? && slot.engine.Some? then Unset else slot
  }

  /** `app.state`. */
  class AppState {
    var engine: EngineSlot

    constructor ()
      ensures engine == Unset
    {
      engine := Unset;
    }

    /** The startup half of `lifespan` (lines 31-42): build the engine and
        store it; on any failure store None and abort with a RuntimeError.
        `loaded` is what the loader returned: it succeeds exactly when
        LoadOutcome does, with its parts, and its failure is LoadOutcome's,
        chained under the startup error. */
    method Startup(settings: AppSettings, hub: Loader.Hub) returns (r: Outcome<()>, ghost loaded: Outcome<Loader.Loaded>)
      modifies this
      ensures engine == SlotAfterStartup(settings, loaded)
      ensures r.Ok? <==> loaded.Ok?
      ensures r.Raise? ==> r.exc == RuntimeError(StartupFailure)
      ensures loaded.Ok? <==> Loader.LoadOutcome(settings.model, hub).Ok?
      ensures loaded.Raise? ==> loaded.exc == Loader.LoadOutcome(settings.model, hub).exc
      ensures loaded.Ok? ==>
                var parts := Loader.LoadOutcome(settings.model, hub).value;
                && loaded.value.model == parts.model
                && loaded.value.processor == parts.processor
                && fresh(loaded.value.tokenizer)
                && loaded.value.tokenizer.call == parts.spec.call
                && loaded.value.tokenizer.encode == parts.spec.encode
                && loaded.value.tokenizer.decode == parts.spec.decode
                && loaded.value.tokenizer.chatTemplate == parts.spec.chatTemplate
                && loaded.value.tokenizer.padToken == parts.padToken
    {
      var result := Loader.LoadModelWithSettings(settings.model, hub);
      loaded := result;
      if result.Raise? {
        engine := Assigned(None);
        return Raise(RuntimeError(StartupFailure)), loaded;
      }
      engine := Assigned(Some(FromLoaded(settings, result.value)));
      r := Ok(());
    }

    /** The shutdown half of `lifespan`. */
    method Shutdown()
      modifies this
      ensures engine == SlotAfterShutdown(old(engine))
    {
      if engine.Assigned? && engine.engine.Some? {
        engine := Unset;
      }
    }
  }

  /** Requests are served after a successful startup, and answered 503 after a
      failed one and after shutdown, whatever state shutdown found. */
  lemma GateFollowsLifecycle(settings: AppSettings, loaded: Outcome<Loader.Loaded>, slot: EngineSlot)
    ensures GetInferenceEngine(SlotAfterStartup(settings, loaded)).result.Ok? <==> loaded.Ok?
    ensures loaded.Ok? ==> GetInferenceEngine(SlotAfterStartup(settings, loaded)).result
                           == Ok(FromLoaded(settings, loaded.value))
    ensures GetInferenceEngine(SlotAfterShutdown(slot)).result.Raise?
  {
  }

  datatype JsonResponse = JsonResponse(status: int, content: map<string, string>)

  /** `general_exception_handler` (lines 66-72). */
  function GeneralExceptionHandler(exc: Exception): (resp: JsonResponse)
    ensures resp.status == 500 && resp.content.Keys == {"detail"}
    ensures StartsWith(resp.content["detail"], "Internal Server Error with ")
    ensures resp.content["detail"][|"Internal Server Error with "|..] == Str(exc)
  {
    JsonResponse(500, map["detail" := "Internal Server Error with " + Str(exc)])
  }
}
