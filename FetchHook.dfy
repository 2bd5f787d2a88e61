/**
 * The page-level hook around `window.fetch` and `navigator.sendBeacon`: which requests it
 * takes for a ChatGPT message or a Google AI request, and the `waterer:send-start` /
 * `waterer:send-ok` events it posts to the page for them.
 */
module FetchHook {
  import opened Wrappers
  import opened JsString

  /** The first argument of `fetch`: a string, a request-like object (an empty field stands for a missing one), or nothing. */
  datatype FetchInput = InputString(s: string) | InputRequest(url: string, httpMethod: string) | InputAbsent

  /** The second argument of `fetch`; an empty method stands for a missing one. */
  datatype FetchInit = NoInit | Init(httpMethod: string)

  /** How the wrapped `fetch` settles. */
  datatype FetchResult = Resolved(ok: bool) | Rejected

  /** A message posted to the page. */
  datatype Event = SendStart(url: string, model: string) | SendOk(url: string, model: string)

  /** `typeof input === 'string' ? input : (input && input.url) || ''`. */
  function FetchUrl(input: FetchInput): string {
    match input
    case InputString(s) => s
    case InputRequest(u, _) => u
    case InputAbsent => ""
  }

  /** `(init && init.method) || (input && input.method) || 'GET'`. */
  function FetchMethod(input: FetchInput, init: FetchInit): string {
    if init.Init? && init.httpMethod != "" then init.httpMethod
    else if input.InputRequest? && input.httpMethod != "" then input.httpMethod
    else "GET"
  }

  /** The ChatGPT conversation endpoints. */
  predicate ChatGPTUrl(url: string) {
    Contains(url, "/backend-api/conversation") || Contains(url, "/backend-anon/conversation")
  }

  /** The Google generative-AI endpoints. */
  predicate GoogleAIUrl(url: string) {
    || Contains(url, "generativelanguage.googleapis.com")
    || Contains(url, "/v1/models")
    || Contains(url, "gemini")
    || Contains(url, "ai.google.dev")
  }

  /** `looksLikeChatGPT` in the `fetch` wrapper. */
  predicate LooksLikeChatGPT(verb: string, url: string) {
    verb == "POST" && ChatGPTUrl(url)
  }

  /** `looksLikeGoogleAI` in the `fetch` wrapper. */
  predicate LooksLikeGoogleAI(verb: string, url: string) {
    verb == "POST" && GoogleAIUrl(url)
  }

  /** The model tag of the `if` / `else if` pair: ChatGPT first. */
  function Tag(chatGPT: bool, googleAI: bool): (tag: Option<string>)
    ensures tag.Some? <==> chatGPT || googleAI
    ensures chatGPT ==> tag == Some("chatgpt")
    ensures !chatGPT && googleAI ==> tag == Some("gemini")
  {
    if chatGPT then Some("chatgpt") else if googleAI then Some("gemini") else None
  }

  /** Every event of `es` that is a start comes first, and there is at most one. */
  predicate AtMostOneStartFirst(es: seq<Event>) {
    forall i :: 0 <= i < |es| && es[i].SendStart? ==> i == 0
  }

  /**
   * The events one call of the wrapped `fetch` posts: a start when the request is
   * classified, and an ok with the same tag once the response resolves with `ok`. A
   * rejected `fetch` is re-issued by the catch block without further events.
   */
  function FetchEvents(input: FetchInput, init: FetchInit, result: FetchResult): (es: seq<Event>)
    ensures |es| <= 2 && AtMostOneStartFirst(es)
    ensures |es| > 0 ==> es[0].SendStart?
    ensures |es| == 2 <==> |es| > 0 && result == Resolved(true)
    ensures |es| == 2 ==> es[1] == SendOk(es[0].url, es[0].model)
    ensures |es| > 0 <==> LooksLikeChatGPT(FetchMethod(input, init), FetchUrl(input))
                          || LooksLikeGoogleAI(FetchMethod(input, init), FetchUrl(input))
    ensures |es| > 0 ==>
      es[0] == SendStart(FetchUrl(input), Tag(LooksLikeChatGPT(FetchMethod(input, init), FetchUrl(input)),
                                              LooksLikeGoogleAI(FetchMethod(input, init), FetchUrl(input))).value)
  {
    var url := FetchUrl(input);
    var verb := FetchMethod(input, init);
    match Tag(LooksLikeChatGPT(verb, url), LooksLikeGoogleAI(verb, url))
    case None => []
    case Some(model) =>
      [SendStart(url, model)] + (if result == Resolved(true) then [SendOk(url, model)] else [])
  }

  /** The events one call of the wrapped `sendBeacon` posts; the ok follows after 100 ms. */
  function BeaconEvents(url: string): (es: seq<Event>)
    ensures |es| == 0 || |es| == 2
    ensures |es| == 2 ==> es[0].SendStart? && es[1] == SendOk(es[0].url, es[0].model)
    ensures |es| == 2 <==> ChatGPTUrl(url) || GoogleAIUrl(url)
    ensures |es| == 2 ==> es[0] == SendStart(url, Tag(ChatGPTUrl(url), GoogleAIUrl(url)).value)
  {
    match Tag(ChatGPTUrl(url), GoogleAIUrl(url))
    case None => []
    case Some(model) => [SendStart(url, model), SendOk(url, model)]
  }

  /** Only a request whose method is exactly `POST` is classified by the `fetch` wrapper. */
  lemma OnlyPostClassified(input: FetchInput, init: FetchInit, result: FetchResult)
    requires FetchMethod(input, init) != "POST"
    ensures FetchEvents(input, init, result) == []
  {
  }

  /** Without a method in `init` or in the request, the method is `GET`, so nothing is posted. */
  lemma MethodDefaultsToGet(input: FetchInput, init: FetchInit, result: FetchResult)
    requires init.NoInit? || init.httpMethod == ""
    requires input.InputRequest? ==> input.httpMethod == ""
    ensures FetchMethod(input, init) == "GET"
    ensures FetchEvents(input, init, result) == []
  {
  }

  /** A POST that matches both families is tagged ChatGPT, in both its events. */
  lemma ChatGPTTakesPrecedence(input: FetchInput, init: FetchInit, result: FetchResult)
    requires FetchMethod(input, init) == "POST" && ChatGPTUrl(FetchUrl(input)) && GoogleAIUrl(FetchUrl(input))
    ensures forall i :: 0 <= i < |FetchEvents(input, init, result)| ==> FetchEvents(input, init, result)[i].model == "chatgpt"
  {
  }

  /**
   * `sendBeacon` ignores the method but uses the same URL tests in the same order: it posts
   * exactly what a successful `fetch` POST to the same URL posts.
   */
  lemma BeaconLikeSuccessfulPost(url: string, init: FetchInit)
    requires init == Init("POST")
    ensures BeaconEvents(url) == FetchEvents(InputString(url), init, Resolved(true))
  {
  }

  /** A send without an ok response never yields the ok event. */
  lemma NoOkWithoutOkResponse(input: FetchInput, init: FetchInit, result: FetchResult)
    requires result != Resolved(true)
    ensures forall i :: 0 <= i < |FetchEvents(input, init, result)| ==> FetchEvents(input, init, result)[i].SendStart?
  {
  }
}
