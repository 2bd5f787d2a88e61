/**
 * The query detector's classifiers: which AI service a host name or a URL belongs to,
 * whether typed text looks like an AI prompt, how large a query is estimated to be,
 * the Enter-key guard of the chat text box, and the network-request classifier
 * `checkForAIQuery`, whose nested walk over the service table is kept as two loops.
 */
module Detect {
  import opened Wrappers
  import opened JsString

  /**
   * A call the detector makes into the ledger: `trackQuery(model, waterUsage)`. Every
   * estimate the detector computes is a whole number of millilitres, so the volume is an
   * `int` here; `Ledger.Tracker.TrackQuery` takes any number, a `real`, and receives this
   * one as `waterUsage as real`.
   */
  datatype TrackRequest = TrackRequest(model: string, waterUsage: int)

  /** The tag given to traffic of an AI service no row of a table recognises. */
  const FallbackModel: string := "ai-service"

  // ---------------------------------------------------------------------------
  // Priority-ordered substring tables

  /** One row of a priority table: if the text contains any of `needles`, the answer is `tag`. */
  datatype Rule = Rule(needles: seq<string>, tag: string)

  /** Some needle occurs in `s`. */
  predicate AnyContained(s: string, needles: seq<string>) {
    exists k :: 0 <= k < |needles| && Contains(s, needles[k])
  }

  /** The tag of the first row that has a needle in `s`, or `fallback`. */
  function FirstMatch(rules: seq<Rule>, s: string, fallback: string): string
    decreases |rules|
  {
    if |rules| == 0 then fallback
    else if AnyContained(s, rules[0].needles) then rules[0].tag
    else FirstMatch(rules[1..], s, fallback)
  }

  /** Row `k` is the first row with a needle in `s`. */
  predicate FirstHit(rules: seq<Rule>, s: string, k: int) {
    && 0 <= k < |rules|
    && AnyContained(s, rules[k].needles)
    && forall j :: 0 <= j < k ==> !AnyContained(s, rules[j].needles)
  }

  /** No row has a needle in `s`. */
  predicate NoHit(rules: seq<Rule>, s: string) {
    forall k :: 0 <= k < |rules| ==> !AnyContained(s, rules[k].needles)
  }

  /** The first row that matches decides, whatever the later rows say. */
  lemma {:induction false} FirstMatchHit(rules: seq<Rule>, s: string, fallback: string, k: int)
    requires FirstHit(rules, s, k)
    ensures FirstMatch(rules, s, fallback) == rules[k].tag
    decreases k
  {
    if k > 0 {
      assert !AnyContained(s, rules[0].needles);
      assert FirstHit(rules[1..], s, k - 1) by {
        forall j | 0 <= j < k - 1 ensures !AnyContained(s, rules[1..][j].needles) {
          assert rules[1..][j] == rules[j + 1];
        }
      }
      FirstMatchHit(rules[1..], s, fallback, k - 1);
    }
  }

  /** With no matching row the answer is the fallback. */
  lemma {:induction false} FirstMatchMiss(rules: seq<Rule>, s: string, fallback: string)
    requires NoHit(rules, s)
    ensures FirstMatch(rules, s, fallback) == fallback
    decreases |rules|
  {
    if |rules| > 0 {
      assert !AnyContained(s, rules[0].needles);
      assert NoHit(rules[1..], s) by {
        forall j | 0 <= j < |rules| - 1 ensures !AnyContained(s, rules[1..][j].needles) {
          assert rules[1..][j] == rules[j + 1];
        }
      }
      FirstMatchMiss(rules[1..], s, fallback);
    }
  }

  /** When some row matches, one of them is the first. */
  lemma {:induction false} SomeHitHasFirst(rules: seq<Rule>, s: string)
    requires !NoHit(rules, s)
    ensures exists k :: FirstHit(rules, s, k)
    decreases |rules|
  {
    if AnyContained(s, rules[0].needles) {
      assert FirstHit(rules, s, 0);
    } else {
      assert !NoHit(rules[1..], s) by {
        var k :| 0 <= k < |rules| && AnyContained(s, rules[k].needles);
        assert rules[1..][k - 1] == rules[k];
      }
      SomeHitHasFirst(rules[1..], s);
      var k :| FirstHit(rules[1..], s, k);
      assert FirstHit(rules, s, k + 1) by {
        forall j | 0 <= j < k + 1 ensures !AnyContained(s, rules[j].needles) {
          if j > 0 { assert rules[1..][j - 1] == rules[j]; }
        }
      }
    }
  }

  /**
   * The full meaning of a priority table whose fallback is none of its tags: the answer
   * is the fallback exactly when no row matches, and otherwise the tag of the first row
   * that matches.
   */
  lemma FirstMatchMeaning(rules: seq<Rule>, s: string, fallback: string)
    requires forall k :: 0 <= k < |rules| ==> rules[k].tag != fallback
    ensures FirstMatch(rules, s, fallback) == fallback <==> NoHit(rules, s)
    ensures forall k :: FirstHit(rules, s, k) ==> FirstMatch(rules, s, fallback) == rules[k].tag
  {
    forall k | FirstHit(rules, s, k) ensures FirstMatch(rules, s, fallback) == rules[k].tag {
      FirstMatchHit(rules, s, fallback, k);
    }
    if NoHit(rules, s) {
      FirstMatchMiss(rules, s, fallback);
    } else {
      SomeHitHasFirst(rules, s);
    }
  }

  // ---------------------------------------------------------------------------
  // detectAIModelFromDomain (content script) and detectAIModelFromURL (background)

  /** The content script's table, in the order of its `if` statements. */
  const DomainRules: seq<Rule> := [
    Rule(["chatgpt", "openai"], "chatgpt"),
    Rule(["gemini", "bard", "google"], "gemini"),
    Rule(["claude", "anthropic"], "claude"),
    Rule(["perplexity"], "perplexity"),
    Rule(["copilot", "microsoft"], "copilot"),
    Rule(["character"], "character"),
    Rule(["you.com"], "you"),
    Rule(["poe"], "poe")
  ]

  /** The background worker's longer table, in the order of its `if` statements. */
  const UrlRules: seq<Rule> := [
    Rule(["chatgpt", "openai"], "chatgpt"),
    Rule(["gemini", "bard", "google"], "gemini"),
    Rule(["claude", "anthropic"], "claude"),
    Rule(["perplexity"], "perplexity"),
    Rule(["copilot", "microsoft"], "copilot"),
    Rule(["cohere"], "cohere"),
    Rule(["huggingface"], "huggingface"),
    Rule(["stability"], "stability"),
    Rule(["replicate"], "replicate"),
    Rule(["together"], "together"),
    Rule(["groq"], "groq"),
    Rule(["mistral"], "mistral"),
    Rule(["character"], "character"),
    Rule(["you.com"], "you"),
    Rule(["poe"], "poe")
  ]

  /** `detectAIModelFromDomain(domain)`: the domain is matched as given, without lowering it. */
  function DetectAIModelFromDomain(domain: string): string {
    FirstMatch(DomainRules, domain, FallbackModel)
  }

  /** `detectAIModelFromURL(url)`: the URL is lowered first. */
  function DetectAIModelFromURL(url: string): string {
    FirstMatch(UrlRules, ToLower(url), FallbackModel)
  }

  /**
   * The content script's domain classifier answers `ai-service` exactly when no needle of
   * its table occurs in the domain, and otherwise the tag of the first row that matches.
   */
  lemma DomainDetection(domain: string)
    ensures DetectAIModelFromDomain(domain) == FallbackModel <==> NoHit(DomainRules, domain)
    ensures forall k :: FirstHit(DomainRules, domain, k) ==> DetectAIModelFromDomain(domain) == DomainRules[k].tag
  {
    FirstMatchMeaning(DomainRules, domain, FallbackModel);
  }

  /**
   * The background classifier answers `ai-service` exactly when no needle occurs in the
   * lowered URL, and otherwise the tag of the first matching row; it ignores letter case.
   */
  lemma UrlDetection(url: string)
    ensures DetectAIModelFromURL(url) == FallbackModel <==> NoHit(UrlRules, ToLower(url))
    ensures forall k :: FirstHit(UrlRules, ToLower(url), k) ==> DetectAIModelFromURL(url) == UrlRules[k].tag
    ensures DetectAIModelFromURL(ToLower(url)) == DetectAIModelFromURL(url)
  {
    assert forall k :: 0 <= k < |UrlRules| ==> UrlRules[k].tag != FallbackModel;
    FirstMatchMeaning(UrlRules, ToLower(url), FallbackModel);
    ToLowerIdempotent(url);
  }

  /**
   * The two tables share their first five rows, so on a lower-case host name that one of
   * those rows recognises, the content script and the background worker agree.
   */
  lemma TablesAgreeOnLeadingVendors(domain: string, k: int)
    requires ToLower(domain) == domain
    requires k < 5 && FirstHit(DomainRules, domain, k)
    ensures DetectAIModelFromURL(domain) == DetectAIModelFromDomain(domain) == DomainRules[k].tag
  {
    assert forall j :: 0 <= j < 5 ==> UrlRules[j] == DomainRules[j];
    assert FirstHit(UrlRules, domain, k);
    FirstMatchHit(UrlRules, domain, FallbackModel, k);
    FirstMatchHit(DomainRules, domain, FallbackModel, k);
  }

  // ---------------------------------------------------------------------------
  // isLikelyAIQuery, estimateQuerySize, estimateQuerySizeFromText

  /** The task phrases whose presence makes typed text look like an AI prompt. */
  const QueryPhrases: seq<string> := [
    "explain", "what is", "how to", "tell me", "write", "generate",
    "create", "summarize", "translate", "analyze", "compare",
    "describe", "define", "help me", "assist", "suggest"
  ]

  /**
   * `isLikelyAIQuery(text)`; `chatElementOnPage` stands for the page containing an element
   * whose class or id mentions "chat" or whose class mentions "message".
   */
  function IsLikelyAIQuery(text: string, chatElementOnPage: bool): (likely: bool)
    ensures |text| > 10 ==> likely
    ensures chatElementOnPage ==> likely
    ensures !chatElementOnPage && |text| <= 10 ==> (likely <==> AnyContained(ToLower(text), QueryPhrases))
  {
    AnyContained(ToLower(text), QueryPhrases) || chatElementOnPage || |text| > 10
  }

  /** `estimateQuerySize()`: the volume, in ml, booked for a detected network query. */
  function EstimateQuerySize(): int {
    50
  }

  /** `estimateQuerySizeFromText(text)`: 20 ml plus 10 ml per full 100 characters. */
  function EstimateQuerySizeFromText(text: string): (ml: int)
    ensures ml >= 20 && (ml - 20) % 10 == 0
    ensures 100 * ((ml - 20) / 10) <= |text| < 100 * ((ml - 20) / 10 + 1)
  {
    20 + (|text| / 100) * 10
  }

  /** A longer text is never estimated smaller. */
  lemma EstimateMonotone(shorter: string, longer: string)
    requires |shorter| <= |longer|
    ensures EstimateQuerySizeFromText(shorter) <= EstimateQuerySizeFromText(longer)
  {
  }

  /** The text-based estimate stays below the fixed network estimate exactly for texts under 300 characters. */
  lemma TextEstimateBelowDefault(text: string)
    ensures EstimateQuerySizeFromText(text) < EstimateQuerySize() <==> |text| < 300
  {
  }

  // ---------------------------------------------------------------------------
  // The Enter-key guard of the chat text box (attachTracking)

  datatype KeyEvent = KeyEvent(key: string, shiftKey: bool)

  /**
   * What a keydown in a tracked text box asks of the ledger: `value` is the box's value
   * (`None` when it is undefined) and `runtimeAvailable` the extension-context probe.
   */
  function EnterKeyRequest(e: KeyEvent, value: Option<string>, runtimeAvailable: bool): (req: Option<TrackRequest>)
    ensures req.Some? <==> e.key == "Enter" && !e.shiftKey && runtimeAvailable && !AllWhitespace(value.GetOr(""))
    ensures req.Some? ==> req.value.model == "chatgpt" && req.value.waterUsage >= 20
    ensures req.Some? ==> req.value.waterUsage == EstimateQuerySizeFromText(Trim(value.GetOr("")))
  {
    TrimEmptyIffBlank(value.GetOr(""));
    if e.key == "Enter" && !e.shiftKey then
      var text := Trim(value.GetOr(""));
      if |text| > 0 && runtimeAvailable then Some(TrackRequest("chatgpt", EstimateQuerySizeFromText(text)))
      else None
    else None
  }

  // ---------------------------------------------------------------------------
  // checkForAIQuery

  /** One entry of the service pattern table: its key, its URL patterns, the model name tracked. */
  datatype Service = Service(key: string, patterns: seq<string>, name: string)

  /** The service table, in its insertion order (the order `Object.entries` walks it). */
  const ServicePatterns: seq<Service> := [
    Service("openai", ["openai.com", "chatgpt.com", "api.openai.com", "/v1/chat", "/v1/completions", "/v1/embeddings"], "chatgpt"),
    Service("google", ["gemini", "bard", "generativelanguage.googleapis.com", "ai.google.dev", "makersuite.google.com"], "gemini"),
    Service("anthropic", ["anthropic.com", "claude.ai", "api.anthropic.com", "/v1/messages"], "claude"),
    Service("perplexity", ["perplexity.ai", "api.perplexity.ai"], "perplexity"),
    Service("microsoft", ["copilot.microsoft.com", "bing.com/chat", "microsoft.com/copilot", "copilotstudio.microsoft.com"], "copilot"),
    Service("cohere", ["cohere.com", "api.cohere.ai", "/v1/generate", "/v1/chat"], "cohere"),
    Service("huggingface", ["huggingface.co", "api-inference.huggingface.co"], "huggingface"),
    Service("stability", ["stability.ai", "api.stability.ai"], "stability"),
    Service("replicate", ["replicate.com", "api.replicate.com"], "replicate"),
    Service("together", ["together.ai", "api.together.xyz"], "together"),
    Service("groq", ["groq.com", "api.groq.com"], "groq"),
    Service("mistral", ["mistral.ai", "api.mistral.ai"], "mistral"),
    Service("character", ["character.ai", "beta.character.ai"], "character"),
    Service("you", ["you.com", "api.you.com"], "you"),
    Service("poe", ["poe.com", "api.poe.com"], "poe"),
    Service("generic", ["/api/chat", "/api/completion", "/api/generate", "/v1/chat/completions", "/ai/", "/llm/", "/gpt/", "openai", "anthropic", "claude", "gemini"], "ai-service")
  ]

  /**
   * The first argument of `checkForAIQuery`: a string, an object with `url`, `method` and
   * `toString()` (an empty `url` or `method` standing for a missing one), or nothing.
   */
  datatype RequestTarget = TargetString(s: string) | TargetObject(url: string, httpMethod: string, text: string) | TargetMissing

  /** `typeof url === 'string' ? url : url?.url || url?.toString() || ''`. */
  function TargetUrl(t: RequestTarget): string {
    match t
    case TargetString(s) => s
    case TargetObject(u, _, text) => if u != "" then u else text
    case TargetMissing => ""
  }

  /** The `isPost` test: the target says POST, or the lowered URL has a completion-style path. */
  predicate PostLike(t: RequestTarget, urlLower: string) {
    || (t.TargetObject? && t.httpMethod == "POST")
    || Contains(urlLower, "/chat/completions")
    || Contains(urlLower, "/v1/chat")
    || Contains(urlLower, "/v1/completions")
  }

  /** A pattern of `service` occurs in the lowered URL and the request is tracked for it. */
  predicate ServiceAdmits(service: Service, urlLower: string, isPost: bool) {
    && (exists k :: 0 <= k < |service.patterns| && Contains(urlLower, ToLower(service.patterns[k])))
    && (isPost || service.key == "openai" || service.key == "google")
  }

  /** The name of the first service, in table order, that admits the request. */
  function FirstAdmitted(services: seq<Service>, urlLower: string, isPost: bool): Option<string>
    decreases |services|
  {
    if |services| == 0 then None
    else if ServiceAdmits(services[0], urlLower, isPost) then Some(services[0].name)
    else FirstAdmitted(services[1..], urlLower, isPost)
  }

  /** The `trackQuery` call `checkForAIQuery` makes for a target, if any. */
  function ClassifyRequest(t: RequestTarget): Option<TrackRequest> {
    var url := TargetUrl(t);
    if url == "" then None
    else
      match FirstAdmitted(ServicePatterns, ToLower(url), PostLike(t, ToLower(url)))
      case None => None
      case Some(name) => Some(TrackRequest(name, EstimateQuerySize()))
  }

  /**
   * `checkForAIQuery(url, response)`: lowers the request URL and looks the request up in
   * the service table.
   */
  method CheckForAIQuery(target: RequestTarget) returns (tracked: Option<TrackRequest>)
    ensures tracked == ClassifyRequest(target)
  {
    var urlString := TargetUrl(target);
    if urlString == "" {
      return None;
    }
    var urlLower := ToLower(urlString);
    var found := ScanServices(ServicePatterns, target, urlLower);
    match found
    case None => tracked := None;
    case Some(name) => tracked := Some(TrackRequest(name, EstimateQuerySize()));
  }

  /**
   * The body of `checkForAIQuery`'s two loops: walks the services and, inside that, each
   * service's patterns, and stops at the first pattern that is found in the lowered URL
   * of a request that is POST-like or belongs to the OpenAI or Google service.
   */
  method ScanServices(services: seq<Service>, target: RequestTarget, urlLower: string) returns (found: Option<string>)
    ensures found == FirstAdmitted(services, urlLower, PostLike(target, urlLower))
  {
    ghost var post := PostLike(target, urlLower);
    var i := 0;
    while i < |services|
      invariant 0 <= i <= |services|
      invariant FirstAdmitted(services, urlLower, post) == FirstAdmitted(services[i..], urlLower, post)
    {
      var service := services[i];
      var j := 0;
      while j < |service.patterns|
        invariant 0 <= j <= |service.patterns|
        invariant forall m :: 0 <= m < j ==> !(Contains(urlLower, ToLower(service.patterns[m])) && (post || service.key == "openai" || service.key == "google"))
      {
        if Contains(urlLower, ToLower(service.patterns[j])) {
          var isPost := (target.TargetObject? && target.httpMethod == "POST")
            || Contains(urlLower, "/chat/completions")
            || Contains(urlLower, "/v1/chat")
            || Contains(urlLower, "/v1/completions");
          if isPost || service.key == "openai" || service.key == "google" {
            assert ServiceAdmits(service, urlLower, post);
            return Some(service.name);
          }
        }
        j := j + 1;
      }
      assert !ServiceAdmits(service, urlLower, post);
      assert services[i..][1..] == services[i + 1..];
      i := i + 1;
    }
    found := None;
  }

  /** A tracked name belongs to a service that admits the request. */
  lemma {:induction false} FirstAdmittedWitness(services: seq<Service>, urlLower: string, isPost: bool)
    requires FirstAdmitted(services, urlLower, isPost).Some?
    ensures exists k :: 0 <= k < |services| && ServiceAdmits(services[k], urlLower, isPost)
             && FirstAdmitted(services, urlLower, isPost).value == services[k].name
    decreases |services|
  {
    if !ServiceAdmits(services[0], urlLower, isPost) {
      FirstAdmittedWitness(services[1..], urlLower, isPost);
      var k :| 0 <= k < |services| - 1 && ServiceAdmits(services[1..][k], urlLower, isPost)
               && FirstAdmitted(services[1..], urlLower, isPost).value == services[1..][k].name;
      assert services[1..][k] == services[k + 1];
    } else {
      assert ServiceAdmits(services[0], urlLower, isPost);
    }
  }

  /**
   * The scan's answer: nothing exactly when no service admits the request, and otherwise
   * the name of the first service, in table order, that admits it.
   */
  lemma {:induction false} FirstAdmittedMeaning(services: seq<Service>, urlLower: string, isPost: bool)
    ensures FirstAdmitted(services, urlLower, isPost).None?
            <==> forall k :: 0 <= k < |services| ==> !ServiceAdmits(services[k], urlLower, isPost)
    ensures forall k :: 0 <= k < |services| && ServiceAdmits(services[k], urlLower, isPost)
                        && (forall j :: 0 <= j < k ==> !ServiceAdmits(services[j], urlLower, isPost))
                        ==> FirstAdmitted(services, urlLower, isPost) == Some(services[k].name)
    decreases |services|
  {
    if |services| > 0 {
      var rest := services[1..];
      FirstAdmittedMeaning(rest, urlLower, isPost);
      assert forall k :: 0 <= k < |rest| ==> rest[k] == services[k + 1];
      if !ServiceAdmits(services[0], urlLower, isPost) {
        forall k | 0 < k < |services| && ServiceAdmits(services[k], urlLower, isPost)
                   && (forall j :: 0 <= j < k ==> !ServiceAdmits(services[j], urlLower, isPost))
          ensures FirstAdmitted(services, urlLower, isPost) == Some(services[k].name)
        {
          assert rest[k - 1] == services[k];
          assert forall j :: 0 <= j < k - 1 ==> !ServiceAdmits(rest[j], urlLower, isPost) by {
            forall j | 0 <= j < k - 1 ensures !ServiceAdmits(rest[j], urlLower, isPost) {
              assert rest[j] == services[j + 1];
            }
          }
        }
        if forall k :: 0 <= k < |rest| ==> !ServiceAdmits(rest[k], urlLower, isPost) {
          forall k | 0 <= k < |services| ensures !ServiceAdmits(services[k], urlLower, isPost) {
            if k > 0 {
              assert services[k] == rest[k - 1];
            }
          }
        }
      }
    }
  }

  /** Only the OpenAI and Google entries of the service table are tracked without POST evidence. */
  lemma PrivilegedServices()
    ensures forall k :: 0 <= k < |ServicePatterns| && ServicePatterns[k].key == "openai" ==> ServicePatterns[k].name == "chatgpt"
    ensures forall k :: 0 <= k < |ServicePatterns| && ServicePatterns[k].key == "google" ==> ServicePatterns[k].name == "gemini"
  {
  }

  /**
   * A request that is not POST-like is tracked, if at all, only as ChatGPT or Gemini: of the
   * whole table only the OpenAI and Google services are admitted without POST evidence.
   */
  lemma NonPostOnlyMajorVendors(t: RequestTarget)
    requires !PostLike(t, ToLower(TargetUrl(t)))
    requires ClassifyRequest(t).Some?
    ensures ClassifyRequest(t).value.model == "chatgpt" || ClassifyRequest(t).value.model == "gemini"
  {
    var lower := ToLower(TargetUrl(t));
    var table := ServicePatterns;
    FirstAdmittedWitness(table, lower, false);
    var k :| 0 <= k < |table| && ServiceAdmits(table[k], lower, false)
             && FirstAdmitted(table, lower, false).value == table[k].name;
    PrivilegedServices();
  }

  /**
   * Every URL with a `/v1/chat` path, whatever the host, is booked as a ChatGPT query of
   * 50 ml. Table order decides: the OpenAI entry, which comes first, lists `/v1/chat`, so a
   * Cohere chat call such as `https://api.cohere.ai/v1/chat` is booked as ChatGPT and the
   * Cohere entry's own `/v1/chat` is never the first match.
   */
  lemma V1ChatIsChatGPT(t: RequestTarget)
    requires Contains(ToLower(TargetUrl(t)), "/v1/chat")
    ensures ClassifyRequest(t) == Some(TrackRequest("chatgpt", 50))
  {
    var lower := ToLower(TargetUrl(t));
    assert ToLower("/v1/chat") == "/v1/chat";
    assert ServicePatterns[0].patterns[3] == "/v1/chat";
    assert ServiceAdmits(ServicePatterns[0], lower, PostLike(t, lower));
  }
}
