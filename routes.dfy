/** The routes the application registers (main.py and the endpoint modules). */
module Routes {
  import opened Common

  datatype Handler = ListModelsHandler | CompletionHandler | ChatCompletionHandler
                   | TokenizeHandler | DetokenizeHandler | HealthHandler

  datatype Method = Get | Post

  /** The route table the decorators build, method and path to handler
      (list_models.py lines 9-10, completions.py line 63, chat_completions.py
      lines 85-88, tokenizer.py lines 14-15 and 31-32, health.py line 6). */
  function RouteTable(): map<(Method, string), Handler>
  {
    map[
      (Get, "/models") := ListModelsHandler,
      (Get, "/v1/models") := ListModelsHandler,
      (Post, "/v1/completions") := CompletionHandler,
      (Post, "/v1/chat/completions") := ChatCompletionHandler,
      (Post, "/tokenize") := TokenizeHandler,
      (Post, "/v1/tokenize") := TokenizeHandler,
      (Post, "/detokenize") := DetokenizeHandler,
      (Post, "/v1/detokenize") := DetokenizeHandler,
      (Get, "/health") := HealthHandler]
  }

  /** The handler a request reaches, if any: each handler is reached from
      exactly the method and paths its decorators name, and nothing else is
      routed. */
  function Route(m: Method, path: string): (h: Option<Handler>)
    ensures h == Some(ListModelsHandler) <==> m == Get && path in {"/models", "/v1/models"}
    ensures h == Some(CompletionHandler) <==> m == Post && path == "/v1/completions"
    ensures h == Some(ChatCompletionHandler) <==> m == Post && path == "/v1/chat/completions"
    ensures h == Some(TokenizeHandler) <==> m == Post && path in {"/tokenize", "/v1/tokenize"}
    ensures h == Some(DetokenizeHandler) <==> m == Post && path in {"/detokenize", "/v1/detokenize"}
    ensures h == Some(HealthHandler) <==> m == Get && path == "/health"
  {
    if (m, path) in RouteTable() then Some(RouteTable()[(m, path)]) else None
  }
}
