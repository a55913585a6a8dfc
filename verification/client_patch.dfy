/**
 * The replacement constructors installed on the async and sync OpenAI client
 * classes: before delegating to the original constructor they force the
 * endpoint and the credential and drop any caller-supplied HTTP client.
 */
module ClientPatch {

  /** A keyword argument's value: a string, or any other object (shown by its rendering). */
  datatype ArgValue = StrArg(s: string) | Object(repr: string)

  type Kwargs = map<string, ArgValue>

  const BaseUrlKey: string := "base_url"
  const ApiKeyKey: string := "api_key"
  const HttpClientKey: string := "http_client"

  /** The fixed endpoint every client is pointed at. */
  const ProviderBaseUrl: string := "https://api.z.ai/api/coding/paas/v4"

  /**
   * The keyword-argument rewrite `patched_init` and `patched_sync_init` apply
   * before calling the class's original constructor (positional arguments
   * pass through unchanged).
   */
  function RewriteKwargs(kwargs: Kwargs, openAIKey: string): (r: Kwargs)
    ensures BaseUrlKey in r && r[BaseUrlKey] == StrArg(ProviderBaseUrl)
    ensures ApiKeyKey in r && r[ApiKeyKey] == StrArg(openAIKey)
    ensures HttpClientKey !in r
    ensures r.Keys == kwargs.Keys + {BaseUrlKey, ApiKeyKey} - {HttpClientKey}
    ensures forall k :: k in kwargs && k !in {BaseUrlKey, ApiKeyKey, HttpClientKey} ==> r[k] == kwargs[k]
  {
    var m := kwargs[BaseUrlKey := StrArg(ProviderBaseUrl)][ApiKeyKey := StrArg(openAIKey)];
    if HttpClientKey in m then m - {HttpClientKey} else m
  }

  /** Rewriting an already rewritten argument map changes nothing. */
  lemma RewriteIdempotent(kwargs: Kwargs, openAIKey: string)
    ensures RewriteKwargs(RewriteKwargs(kwargs, openAIKey), openAIKey) == RewriteKwargs(kwargs, openAIKey)
  {
  }

  /** The outcome does not depend on what the caller passed for the three forced keys. */
  lemma RewriteIgnoresForcedKeys(a: Kwargs, b: Kwargs, openAIKey: string)
    requires a - {BaseUrlKey, ApiKeyKey, HttpClientKey} == b - {BaseUrlKey, ApiKeyKey, HttpClientKey}
    ensures RewriteKwargs(a, openAIKey) == RewriteKwargs(b, openAIKey)
  {
    var ra := RewriteKwargs(a, openAIKey);
    var rb := RewriteKwargs(b, openAIKey);
    forall k | k in ra
      ensures k in rb && ra[k] == rb[k]
    {
      if k !in {BaseUrlKey, ApiKeyKey, HttpClientKey} {
        assert k in a - {BaseUrlKey, ApiKeyKey, HttpClientKey};
      }
    }
    forall k | k in rb
      ensures k in ra
    {
      if k !in {BaseUrlKey, ApiKeyKey, HttpClientKey} {
        assert k in b - {BaseUrlKey, ApiKeyKey, HttpClientKey};
      }
    }
  }
}
