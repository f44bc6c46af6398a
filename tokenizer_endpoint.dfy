/** The tokenizer endpoints (src/api/endpoints/tokenizer.py). */
module TokenizerEndpoint {
  import opened Common
  import opened Records
  import opened Engine

  const TokenizeErrorPrefix := "Internal Server Error during tokenization. "
  const DetokenizeErrorPrefix := "Internal Server Error during detokenization. "

  /** `tokenize` (lines 16-28): the engine's tokens and their count; any
      exception, an HTTP one included, becomes HTTP 500. */
  function TokenizeRoute(e: InferenceEngine, request: TokenizeRequest): (r: Outcome<TokenizeResponse>)
    ensures r.Ok? <==> Tokenize(e, request.prompt).Ok?
    ensures r.Ok? ==> Ok(r.value.tokens) == Tokenize(e, request.prompt) && r.value.count == |r.value.tokens|
    ensures r.Raise? ==> r.exc == HttpException(500, TokenizeErrorPrefix + Str(Tokenize(e, request.prompt).exc))
  {
    match Tokenize(e, request.prompt)
    case Ok(tokens) => Ok(TokenizeResponse(tokens, |tokens|))
    case Raise(x) => Raise(HttpException(500, TokenizeErrorPrefix + Str(x)))
  }

  /** `detokenize` (lines 33-45). */
  function DetokenizeRoute(e: InferenceEngine, request: DetokenizeRequest): (r: Outcome<DetokenizeResponse>)
    ensures r.Ok? <==> Detokenize(e, request.tokens).Ok?
    ensures r.Ok? ==> Ok(r.value.prompt) == Detokenize(e, request.tokens)
    ensures r.Raise? ==> r.exc == HttpException(500, DetokenizeErrorPrefix + Str(Detokenize(e, request.tokens).exc))
  {
    match Detokenize(e, request.tokens)
    case Ok(text) => Ok(DetokenizeResponse(text))
    case Raise(x) => Raise(HttpException(500, DetokenizeErrorPrefix + Str(x)))
  }

  /** Both endpoints pass straight through to the tokenizer: tokenize encodes,
      detokenize decodes keeping special tokens. */
  lemma RoutesPassThrough(e: InferenceEngine, prompt: string, tokens: seq<int>)
    ensures TokenizeRoute(e, TokenizeRequest(None, prompt)).Ok? <==> e.tokenizer.encode(prompt).Ok?
    ensures e.tokenizer.encode(prompt).Ok? ==>
              TokenizeRoute(e, TokenizeRequest(None, prompt)).value.tokens == e.tokenizer.encode(prompt).value
    ensures e.tokenizer.decode(tokens, false).Ok? ==>
              DetokenizeRoute(e, DetokenizeRequest(None, tokens)) == Ok(DetokenizeResponse(e.tokenizer.decode(tokens, false).value))
  {
  }
}
