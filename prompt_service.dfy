/**
 * PromptService: fills the three configured prompt templates.  Template
 * expansion (`String.format`) and Jackson's map serialisation are
 * parameters; this module fixes which values go into which template, in
 * which order, and how maps and bodies are abbreviated.
 */
module PromptService {
  import opened Wrappers
  import opened JavaStrings
  import opened Dto

  const MaxBodyLength: int := 5000
  const Ellipsis: string := "..."
  const EmptyBody: string := "(empty)"
  const EmptyMap: string := "{}"

  /** One argument of `String.format`: a possibly-null object printed with `%s`, or a number. */
  datatype FormatArg = Text(text: Option<string>) | Number(number: int)

  /** `String.format(template, args...)`. */
  type Formatter = (string, seq<FormatArg>) -> string

  /** `objectMapper.valueToTree(map).toString()` of a non-empty map. */
  type JsonWriter = Entries -> string

  /** The three configured templates. */
  datatype PromptTemplates = PromptTemplates(documentation: string, description: string, analysis: string)

  /** `formatBody`: "(empty)" for a missing or blank body, the body cut to 4997 characters plus "..." past 5000, else the body. */
  function FormatBody(body: Option<string>): (r: string)
    ensures body.None? || IsBlank(body.value) ==> r == EmptyBody
    ensures body.Some? && !IsBlank(body.value) && |body.value| <= MaxBodyLength ==> r == body.value
    ensures body.Some? && !IsBlank(body.value) && |body.value| > MaxBodyLength ==>
              |r| == MaxBodyLength && r[..MaxBodyLength - 3] == body.value[..MaxBodyLength - 3] &&
              r[MaxBodyLength - 3..] == Ellipsis
    ensures |r| <= MaxBodyLength
  {
    if body.None? || IsBlank(body.value) then EmptyBody
    else if |body.value| > MaxBodyLength then body.value[..MaxBodyLength - 3] + Ellipsis
    else body.value
  }

  /** `formatHeaders` and `formatQueryParams`: "{}" for a missing or empty map, its JSON text otherwise. */
  function FormatMap(entries: Option<Entries>, write: JsonWriter): (r: string)
    ensures entries.None? || entries.value == [] ==> r == EmptyMap
    ensures entries.Some? && entries.value != [] ==> r == write(entries.value)
  {
    if entries.None? || entries.value == [] then EmptyMap else write(entries.value)
  }

  /** The values of `buildDescriptionPrompt`. */
  function DescriptionArgs(request: ApiRequest, write: JsonWriter): (args: seq<FormatArg>)
    ensures |args| == 5
    ensures args[0] == Text(request.httpMethod) && args[1] == Text(request.url)
    ensures args[2] == Text(Some(FormatMap(request.headers, write)))
    ensures args[3] == Text(Some(FormatMap(request.queryParams, write)))
    ensures args[4] == Text(Some(FormatBody(request.body)))
  {
    [Text(request.httpMethod), Text(request.url), Text(Some(FormatMap(request.headers, write))),
     Text(Some(FormatMap(request.queryParams, write))), Text(Some(FormatBody(request.body)))]
  }

  /** The values of `buildAnalysisPrompt`. */
  function AnalysisArgs(response: ApiExecutionResponse, write: JsonWriter): (args: seq<FormatArg>)
    ensures |args| == 5
    ensures args[0] == Number(response.statusCode) && args[1] == Text(response.statusText)
    ensures args[2] == Text(Some(FormatMap(response.headers, write)))
    ensures args[3] == Text(Some(FormatBody(response.body)))
    ensures args[4] == Number(response.responseTimeMs)
  {
    [Number(response.statusCode), Text(response.statusText), Text(Some(FormatMap(response.headers, write))),
     Text(Some(FormatBody(response.body))), Number(response.responseTimeMs)]
  }

  /** `buildDocumentationPrompt`: the request's five values, then the response's five. */
  function BuildDocumentationPrompt(templates: PromptTemplates, request: ApiRequest, response: ApiExecutionResponse,
                                    format: Formatter, write: JsonWriter): (prompt: string)
    ensures prompt == format(templates.documentation, DescriptionArgs(request, write) + AnalysisArgs(response, write))
  {
    var args := [Text(request.httpMethod), Text(request.url), Text(Some(FormatMap(request.headers, write))),
                 Text(Some(FormatMap(request.queryParams, write))), Text(Some(FormatBody(request.body))),
                 Number(response.statusCode), Text(response.statusText), Text(Some(FormatMap(response.headers, write))),
                 Text(Some(FormatBody(response.body))), Number(response.responseTimeMs)];
    assert args == DescriptionArgs(request, write) + AnalysisArgs(response, write);
    format(templates.documentation, args)
  }

  /** `buildDescriptionPrompt`. */
  function BuildDescriptionPrompt(templates: PromptTemplates, request: ApiRequest, format: Formatter, write: JsonWriter): (prompt: string)
    ensures prompt == format(templates.description, DescriptionArgs(request, write))
  {
    format(templates.description, DescriptionArgs(request, write))
  }

  /** `buildAnalysisPrompt`. */
  function BuildAnalysisPrompt(templates: PromptTemplates, response: ApiExecutionResponse, format: Formatter, write: JsonWriter): (prompt: string)
    ensures prompt == format(templates.analysis, AnalysisArgs(response, write))
  {
    format(templates.analysis, AnalysisArgs(response, write))
  }

  // ---------------------------------------------------------------- properties

  /** Abbreviating a body twice changes nothing more. */
  lemma FormatBodyIdempotent(body: Option<string>)
    ensures FormatBody(Some(FormatBody(body))) == FormatBody(body)
  {
    var r := FormatBody(body);
    if body.Some? && !IsBlank(body.value) && |body.value| > MaxBodyLength {
      assert r[|r| - 1] == '.';
      NonBlankEnd(r);
    } else if body.Some? && !IsBlank(body.value) {
    } else {
      assert r[0] == '(';
      NonBlankEnd(r);
    }
  }

  /** A string whose last character is printable is not blank. */
  lemma NonBlankEnd(s: string)
    requires |s| > 0 && !IsTrimmed(s[|s| - 1])
    ensures !IsBlank(s)
  {
  }

  /** Only method, URL, headers, query parameters and body reach the description prompt. */
  lemma DescriptionIgnoresSessionAndTransportSettings(templates: PromptTemplates, request: ApiRequest,
                                                      sessionId: Option<string>, timeoutMs: Option<int>, follow: Option<bool>,
                                                      format: Formatter, write: JsonWriter)
    ensures BuildDescriptionPrompt(templates, request.(sessionId := sessionId, timeoutMs := timeoutMs, followRedirects := follow), format, write) ==
            BuildDescriptionPrompt(templates, request, format, write)
  {
  }

  /** A missing map and an empty one print alike, and so do a missing body and a blank one. */
  lemma MissingIsEmpty(write: JsonWriter, blank: string)
    requires IsBlank(blank)
    ensures FormatMap(None, write) == FormatMap(Some([]), write) == EmptyMap
    ensures FormatBody(None) == FormatBody(Some(blank)) == EmptyBody
  {
  }
}
