/** The model list endpoint (src/api/endpoints/list_models.py). */
module ListModels {
  import opened Common
  import opened Records
  import opened Engine

  /** `list_models` (lines 11-26): one card per served model name, in order;
      a configuration without a name list fails the assertion. */
  function ListModelsRoute(e: InferenceEngine): (r: Outcome<ModelList>)
    ensures e.settings.server.servedModelNames.None? <==> r.Raise?
    ensures r.Raise? ==> r.exc == AssertionError("Model names must be a list")
    ensures r.Ok? ==> r.value.objectName == "list"
    ensures r.Ok? ==>
              var names := e.settings.server.servedModelNames.value;
              |r.value.data| == |names| && forall i :: 0 <= i < |names| ==> r.value.data[i] == NewModelCard(names[i])
  {
    match e.settings.server.servedModelNames
    case None => Raise(AssertionError("Model names must be a list"))
    case Some(names) => Ok(NewModelList(seq(|names|, i requires 0 <= i < |names| => NewModelCard(names[i]))))
  }

  /** The ids of the listed cards are the served model names, in order, and
      every card is owned by "transAPI" with object "model". */
  lemma {:induction false} CardIdsAreNames(e: InferenceEngine)
    requires e.settings.server.servedModelNames.Some?
    ensures var data := ListModelsRoute(e).value.data;
            && seq(|data|, i requires 0 <= i < |data| => data[i].id) == e.settings.server.servedModelNames.value
            && forall i :: 0 <= i < |data| ==> data[i].objectName == "model" && data[i].ownedBy == "transAPI"
  {
    var data := ListModelsRoute(e).value.data;
    var names := e.settings.server.servedModelNames.value;
    assert forall i :: 0 <= i < |data| ==> data[i].id == names[i];
  }
}
