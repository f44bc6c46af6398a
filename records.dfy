/** Plain response records: token usage (src/api/types/usage_info.py), the
    tokenizer endpoint bodies (src/api/types/tokenize.py) and the model list
    (src/api/types/model_list.py). The `created` timestamps are not modelled. */
module Records {
  import opened Common

  /** `completion_tokens` is optional; every response the server builds sets it. */
  datatype UsageInfo = UsageInfo(promptTokens: int, completionTokens: Option<int>, totalTokens: int)

  /** The usage block of a finished generation. */
  function UsageOf(promptTokens: int, completionTokens: int): (u: UsageInfo)
    ensures u.completionTokens.Some? && u.totalTokens == u.promptTokens + u.completionTokens.value
  {
    UsageInfo(promptTokens, Some(completionTokens), promptTokens + completionTokens)
  }

  datatype TokenizeRequest = TokenizeRequest(model: Option<string>, prompt: string)
  datatype TokenizeResponse = TokenizeResponse(tokens: seq<int>, count: int)
  datatype DetokenizeRequest = DetokenizeRequest(model: Option<string>, tokens: seq<int>)
  datatype DetokenizeResponse = DetokenizeResponse(prompt: string)

  datatype ModelCard = ModelCard(id: string, objectName: string, ownedBy: string)
  datatype ModelList = ModelList(objectName: string, data: seq<ModelCard>)

  /** `ModelCard(id=...)` with its defaults. */
  function NewModelCard(id: string): ModelCard
  {
    ModelCard(id, "model", "transAPI")
  }

  /** `ModelList(data=...)` with its default. */
  function NewModelList(data: seq<ModelCard>): ModelList
  {
    ModelList("list", data)
  }
}
