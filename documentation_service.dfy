/**
 * DocumentationService: the three cached AI operations.  Each cache is a
 * map from key to result; an operation returns the cached result on a
 * hit, and on a miss builds its prompt, makes one AI call and stores the
 * result unless the write gate refuses it.
 */
module AiDocumentation {
  import opened Wrappers
  import opened JavaStrings
  import opened Dto
  import opened PromptService
  import opened ClientService

  /** The one AI call an operation made: its prompt and its operation label. */
  datatype AiCall = AiCall(prompt: string, operationType: string)

  /** `#request.url() + '_' + #request.method()`, a null printing as "null". */
  function EndpointKey(request: ApiRequest): (key: string)
    ensures var url := Show(request.url);
            |key| == |url| + 1 + |Show(request.httpMethod)| &&
            key[..|url|] == url && key[|url|] == '_' && key[|url| + 1..] == Show(request.httpMethod)
  {
    Show(request.url) + "_" + Show(request.httpMethod)
  }

  /** `#response.statusCode() + '_' + #response.responseTimeMs() + '_' + Objects.hash(#response.body())`. */
  function AnalysisKey(response: ApiExecutionResponse): (key: string)
    ensures var status, time, hash := IntToString(response.statusCode), IntToString(response.responseTimeMs),
                                      IntToString(ObjectsHash(response.body));
            |key| == |status| + |time| + |hash| + 2 &&
            key[..|status|] == status && key[|status|] == '_' &&
            key[|status| + 1..|status| + 1 + |time|] == time && key[|status| + 1 + |time|] == '_' &&
            key[|status| + |time| + 2..] == hash
  {
    IntToString(response.statusCode) + "_" + IntToString(response.responseTimeMs) + "_" + IntToString(ObjectsHash(response.body))
  }

  /** The negation of `unless = "#result == null or #result.contains('error')"`: whether a result is stored. */
  predicate IsCacheable(result: Option<string>)
    ensures IsCacheable(result) <==> result.Some? && forall i :: !OccursAt(result.value, "error", i)
  {
    result.Some? && (ContainsIffOccurs(result.value, "error"); !Contains(result.value, "error"))
  }

  /** What a cache may hold: only values the gate let through. */
  predicate GateHolds(cache: map<string, string>) {
    forall k :: k in cache ==> !Contains(cache[k], "error")
  }

  /** A cache after one lookup: unchanged on a hit or a refused result, the one key written otherwise. */
  function AfterCall(cache: map<string, string>, key: string, result: Option<string>): (c: map<string, string>)
    ensures key in cache ==> c == cache
    ensures key !in cache && IsCacheable(result) ==> c == cache[key := result.value]
    ensures key !in cache && !IsCacheable(result) ==> c == cache
    ensures GateHolds(cache) ==> GateHolds(c)
  {
    if key !in cache && IsCacheable(result) then cache[key := result.value] else cache
  }

  class DocumentationService {
    /** `ai-documentation`, `ai-descriptions` and `ai-analysis`. */
    var documentationCache: map<string, string>
    var descriptionCache: map<string, string>
    var analysisCache: map<string, string>

    const client: ClientConfig
    const templates: PromptTemplates
    const format: Formatter
    const write: JsonWriter
    const parse: JsonParser

    ghost predicate Valid()
      reads this
    {
      GateHolds(documentationCache) && GateHolds(descriptionCache) && GateHolds(analysisCache)
    }

    constructor (client: ClientConfig, templates: PromptTemplates, format: Formatter, write: JsonWriter, parse: JsonParser)
      ensures Valid()
      ensures documentationCache == map[] && descriptionCache == map[] && analysisCache == map[]
      ensures this.client == client && this.templates == templates && this.format == format
      ensures this.write == write && this.parse == parse
    {
      this.client := client;
      this.templates := templates;
      this.format := format;
      this.write := write;
      this.parse := parse;
      documentationCache := map[];
      descriptionCache := map[];
      analysisCache := map[];
    }

    /** `generateDocumentation`: keyed by URL and method only. */
    method GenerateDocumentation(request: ApiRequest, response: ApiExecutionResponse, server: Server)
      returns (result: Option<string>, call: Option<AiCall>)
      requires Valid()
      modifies this
      ensures Valid()
      ensures var key := EndpointKey(request);
              var prompt := BuildDocumentationPrompt(templates, request, response, format, write);
              (key in old(documentationCache) ==> result == Some(old(documentationCache)[key]) && call.None?) &&
              (key !in old(documentationCache) ==>
                 call == Some(AiCall(prompt, "documentation generation")) &&
                 result == CallOutcome(server(BuildApiRequest(client, prompt)), parse, client.nullPointerMessage).result) &&
              documentationCache == AfterCall(old(documentationCache), key, result)
      ensures descriptionCache == old(descriptionCache) && analysisCache == old(analysisCache)
    {
      var key := EndpointKey(request);
      if key in documentationCache {
        return Some(documentationCache[key]), None;
      }
      var prompt := BuildDocumentationPrompt(templates, request, response, format, write);
      var payload, attempts, delays;
      result, payload, attempts, delays := ExecuteAiRequest(client, prompt, server, parse);
      call := Some(AiCall(prompt, "documentation generation"));
      documentationCache := AfterCall(documentationCache, key, result);
    }

    /** `generateApiDescription`: keyed by URL and method only. */
    method GenerateApiDescription(request: ApiRequest, server: Server)
      returns (result: Option<string>, call: Option<AiCall>)
      requires Valid()
      modifies this
      ensures Valid()
      ensures var key := EndpointKey(request);
              var prompt := BuildDescriptionPrompt(templates, request, format, write);
              (key in old(descriptionCache) ==> result == Some(old(descriptionCache)[key]) && call.None?) &&
              (key !in old(descriptionCache) ==>
                 call == Some(AiCall(prompt, "description generation")) &&
                 result == CallOutcome(server(BuildApiRequest(client, prompt)), parse, client.nullPointerMessage).result) &&
              descriptionCache == AfterCall(old(descriptionCache), key, result)
      ensures documentationCache == old(documentationCache) && analysisCache == old(analysisCache)
    {
      var key := EndpointKey(request);
      if key in descriptionCache {
        return Some(descriptionCache[key]), None;
      }
      var prompt := BuildDescriptionPrompt(templates, request, format, write);
      var payload, attempts, delays;
      result, payload, attempts, delays := ExecuteAiRequest(client, prompt, server, parse);
      call := Some(AiCall(prompt, "description generation"));
      descriptionCache := AfterCall(descriptionCache, key, result);
    }

    /** `analyzeResponse`: keyed by status, time and the hash of the body. */
    method AnalyzeResponse(response: ApiExecutionResponse, server: Server)
      returns (result: Option<string>, call: Option<AiCall>)
      requires Valid()
      modifies this
      ensures Valid()
      ensures var key := AnalysisKey(response);
              var prompt := BuildAnalysisPrompt(templates, response, format, write);
              (key in old(analysisCache) ==> result == Some(old(analysisCache)[key]) && call.None?) &&
              (key !in old(analysisCache) ==>
                 call == Some(AiCall(prompt, "response analysis")) &&
                 result == CallOutcome(server(BuildApiRequest(client, prompt)), parse, client.nullPointerMessage).result) &&
              analysisCache == AfterCall(old(analysisCache), key, result)
      ensures documentationCache == old(documentationCache) && descriptionCache == old(descriptionCache)
    {
      var key := AnalysisKey(response);
      if key in analysisCache {
        return Some(analysisCache[key]), None;
      }
      var prompt := BuildAnalysisPrompt(templates, response, format, write);
      var payload, attempts, delays;
      result, payload, attempts, delays := ExecuteAiRequest(client, prompt, server, parse);
      call := Some(AiCall(prompt, "response analysis"));
      analysisCache := AfterCall(analysisCache, key, result);
    }
  }

  // ---------------------------------------------------------------- properties

  /** The endpoint key tells URLs and methods apart when the method has no underscore. */
  lemma EndpointKeyInjective(r1: ApiRequest, r2: ApiRequest)
    requires '_' !in Show(r1.httpMethod) && '_' !in Show(r2.httpMethod)
    requires EndpointKey(r1) == EndpointKey(r2)
    ensures Show(r1.url) == Show(r2.url) && Show(r1.httpMethod) == Show(r2.httpMethod)
  {
    SplitAtLastSeparator(Show(r1.url), Show(r1.httpMethod), Show(r2.url), Show(r2.httpMethod), '_');
  }

  /** An underscore in the URL lets two different endpoints share a key. */
  lemma EndpointKeyCollision(r: ApiRequest)
    ensures EndpointKey(r.(url := Some("a_b"), httpMethod := Some("c"))) == EndpointKey(r.(url := Some("a"), httpMethod := Some("b_c")))
  {
  }

  /** The analysis key tells status, time and body hash apart. */
  lemma AnalysisKeyInjective(a: ApiExecutionResponse, b: ApiExecutionResponse)
    requires AnalysisKey(a) == AnalysisKey(b)
    ensures a.statusCode == b.statusCode && a.responseTimeMs == b.responseTimeMs && ObjectsHash(a.body) == ObjectsHash(b.body)
  {
    NoUnderscoreInNumber(a.statusCode);
    NoUnderscoreInNumber(b.statusCode);
    NoUnderscoreInNumber(a.responseTimeMs);
    NoUnderscoreInNumber(b.responseTimeMs);
    SplitThreeParts(IntToString(a.statusCode), IntToString(a.responseTimeMs), IntToString(ObjectsHash(a.body)),
                    IntToString(b.statusCode), IntToString(b.responseTimeMs), IntToString(ObjectsHash(b.body)));
    IntToStringInjective(a.statusCode, b.statusCode);
    IntToStringInjective(a.responseTimeMs, b.responseTimeMs);
    IntToStringInjective(ObjectsHash(a.body), ObjectsHash(b.body));
  }

  /** Three parts joined by underscores, the first two without one, come apart again. */
  lemma SplitThreeParts(a1: string, a2: string, a3: string, b1: string, b2: string, b3: string)
    requires '_' !in a1 && '_' !in a2 && '_' !in b1 && '_' !in b2
    requires a1 + "_" + a2 + "_" + a3 == b1 + "_" + b2 + "_" + b3
    ensures a1 == b1 && a2 == b2 && a3 == b3
  {
    assert a1 + "_" + a2 + "_" + a3 == a1 + "_" + (a2 + "_" + a3);
    assert b1 + "_" + b2 + "_" + b3 == b1 + "_" + (b2 + "_" + b3);
    SplitAtFirstSeparator(a1, a2 + "_" + a3, b1, b2 + "_" + b3, '_');
    SplitAtFirstSeparator(a2, a3, b2, b3, '_');
  }

  lemma NoUnderscoreInNumber(i: int)
    ensures '_' !in IntToString(i)
  {
  }

  /** Bodies whose hash codes collide share an analysis key: "Aa" and "BB" get the same analysis. */
  lemma AnalysisKeyCollision(r: ApiExecutionResponse)
    ensures AnalysisKey(r.(body := Some("Aa"))) == AnalysisKey(r.(body := Some("BB")))
  {
    HashCollision();
  }

  /** The documentation key ignores the response and everything in the request except URL and method. */
  lemma DocumentationKeyIgnoresResponse(request: ApiRequest, headers: Option<Entries>, params: Option<Entries>, body: Option<string>)
    ensures EndpointKey(request.(headers := headers, queryParams := params, body := body)) == EndpointKey(request)
  {
  }

  /** The gate refuses exactly a missing result and one containing "error". */
  lemma GateAsWritten(result: string)
    ensures !IsCacheable(None)
    ensures IsCacheable(Some(result)) <==> !exists i :: OccursAt(result, "error", i)
  {
    ContainsIffOccurs(result, "error");
  }

  /**
   * The gate is case-sensitive: an "API Error: " message is stored unless
   * its own text contains "error", since the prefix itself has no 'e'.
   */
  lemma ApiErrorMessagesAreCached(message: string)
    ensures IsCacheable(Some(ApiErrorPrefix + message)) <==> !Contains(message, "error")
  {
    assert 'e' !in ApiErrorPrefix by {
      assert ApiErrorPrefix == "API Error: ";
    }
    ContainsSkipsPrefix(ApiErrorPrefix, message, "error");
  }

  /**
   * The gate does not catch the client's fallback message: the
   * "temporarily unavailable" answer after exhausted retries is stored, and
   * later hits for the same key repeat it without a new call.
   */
  lemma UnavailableMessageIsCached()
    ensures IsCacheable(Some(AiErrorMessage))
  {
    UnavailableMessageHasNoDoubleR();
    ErrorNeedsDoubleR(AiErrorMessage);
  }

  /** Every occurrence of "error" holds an occurrence of "rr". */
  lemma ErrorNeedsDoubleR(s: string)
    requires !Contains(s, "rr")
    ensures !Contains(s, "error")
  {
    ContainsIffOccurs(s, "error");
    ContainsIffOccurs(s, "rr");
    if exists i :: OccursAt(s, "error", i) {
      var i :| OccursAt(s, "error", i);
      assert s[i + 1..i + 3] == "error"[1..3];
      assert OccursAt(s, "rr", i + 1);
    }
  }

  lemma UnavailableMessageHasNoDoubleR()
    ensures !Contains(AiErrorMessage, "rr")
  {
    FirstPartPieces();
    SecondPartPieces();
    PiecesHaveNoR();
    assert "ily unavailable. " + "Please t" == "ily unavailable. Please t";
    assert AiErrorMessage == "AI service temporarily unavailable. " + "Please try again later.";
    NoDoubleRBetweenPieces("AI se", "vice tempo", "a", "ily unavailable. Please t", "y again late", ".");
    Regroup("AI se", "vice tempo", "a", "ily unavailable. ", "Please t", "y again late", ".");
  }

  /** The unavailable message cut at its 'r's. */
  lemma FirstPartPieces()
    ensures "AI service temporarily unavailable. " == "AI se" + "r" + "vice tempo" + "r" + "a" + "r" + "ily unavailable. "
  {
  }

  lemma SecondPartPieces()
    ensures "Please try again later." == "Please t" + "r" + "y again late" + "r" + "."
  {
  }

  lemma PiecesHaveNoR()
    ensures 'r' !in "AI se" && 'r' !in "vice tempo" && 'r' !in "a" && 'r' !in "ily unavailable. Please t" &&
            'r' !in "y again late" && 'r' !in "."
  {
  }

  /** Every "API error (n): …" message contains "error", so the gate refuses it. */
  lemma StatusErrorMessageIsRefused(status: int, cause: Option<string>)
    requires status !in {429, 401, 403, 404}
    ensures !IsCacheable(Some(HandleHttpError(status, cause)))
  {
    var r := HandleHttpError(status, cause);
    assert r[4..9] == "error";
    assert OccursAt(r, "error", 4);
    ContainsIffOccurs(r, "error");
  }

  /** Pieces without 'r', each after the first non-empty, joined by single 'r's, hold no "rr". */
  lemma {:induction false} NoDoubleRBetweenPieces(p1: string, p2: string, p3: string, p4: string, p5: string, p6: string)
    requires 'r' !in p1 && 'r' !in p2 && 'r' !in p3 && 'r' !in p4 && 'r' !in p5 && 'r' !in p6
    requires p2 != [] && p3 != [] && p4 != [] && p5 != [] && p6 != []
    ensures !Contains(p1 + "r" + p2 + "r" + p3 + "r" + p4 + "r" + p5 + "r" + p6, "rr")
  {
    var s6 := p6;
    var s5 := p5 + "r" + s6;
    var s4 := p4 + "r" + s5;
    var s3 := p3 + "r" + s4;
    var s2 := p2 + "r" + s3;
    var s1 := p1 + "r" + s2;
    assert s1 == p1 + "r" + p2 + "r" + p3 + "r" + p4 + "r" + p5 + "r" + p6;
    SkipPieceAndR(p1, s2);
    SkipPieceAndR(p2, s3);
    SkipPieceAndR(p3, s4);
    SkipPieceAndR(p4, s5);
    SkipPieceAndR(p5, s6);
    assert p6 + [] == p6;
    ContainsSkipsPrefix(p6, [], "rr");
  }

  lemma SkipPieceAndR(p: string, s: string)
    requires 'r' !in p && s != [] && s[0] != 'r'
    ensures Contains(p + "r" + s, "rr") <==> Contains(s, "rr")
  {
    assert p + "r" + s == p + ("r" + s);
    ContainsSkipsPrefix(p, "r" + s, "rr");
    SkipMismatch('r', s, "rr");
  }

  lemma Regroup(a: string, b: string, c: string, d1: string, d2: string, e: string, f: string)
    ensures (a + "r" + b + "r" + c + "r" + d1) + (d2 + "r" + e + "r" + f) ==
            a + "r" + b + "r" + c + "r" + (d1 + d2) + "r" + e + "r" + f
  {
  }

  /** A caller that asks twice for a description gets the same answer and makes no second call, when the first was stored. */
  method DescribeTwice(service: DocumentationService, request: ApiRequest, first: Server, second: Server)
    returns (a: Option<string>, b: Option<string>, secondCall: Option<AiCall>)
    requires service.Valid()
    modifies service
    ensures IsCacheable(a) ==> b == a && secondCall.None?
  {
    var call;
    a, call := service.GenerateApiDescription(request, first);
    b, secondCall := service.GenerateApiDescription(request, second);
  }
}
