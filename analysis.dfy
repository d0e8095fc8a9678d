/**
 * The reply handling of `analyze_screen` in src-tauri/src/auto_perception/mod.rs:
 * which prompt is sent, how a rejected request is classified, how a code fence
 * around the reply is removed, and how a reply that does not parse is reported.
 * The JSON parser of the reply is a parameter.
 */
module Analysis {
  import opened Wrappers
  import opened Text
  import opened ChatApi
  import opened CaptureSettingsModel

  /** `ScreenAnalysis`, the structured reply. */
  datatype ScreenAnalysis = ScreenAnalysis(currentFocus: string, activeSoftware: string, contextKeywords: seq<string>)

  const DefaultAnalysisPrompt :=
    "Analyze this screenshot and return a JSON object with:\n"
    + "- current_focus: What is the user currently working on? (1-2 sentences in Chinese)\n"
    + "- active_software: What software is being used? (in Chinese)\n"
    + "- context_keywords: What are the key topics/technologies? (array of strings, in Chinese)\n"
    + "\n"
    + "Return ONLY valid JSON, no other text. Example format:\n"
    + "{\"current_focus\": \"编写 Rust 后端代码\", \"active_software\": \"VS Code\", \"context_keywords\": [\"Rust\", \"Tauri\", \"异步编程\"]}"

  const AnalysisMaxTokens: nat := 500

  const VisionUnsupportedHead := "当前模型不支持图像分析"
  const VisionUnsupportedMessage :=
    VisionUnsupportedHead + "（Vision）。" + "请在设置中将模型改为支持视觉功能的型号，" + "例如 gpt-4o 或 gpt-4-turbo。"

  /** The prompt: the configured one when it is present and non-empty, the built-in one otherwise. */
  function PromptFor(custom: Option<string>): (p: string)
    ensures |p| > 0
    ensures custom.Some? && custom.value != [] ==> p == custom.value
    ensures custom.None? || custom.value == [] ==> p == DefaultAnalysisPrompt
  {
    match custom
    case Some(text) => if text != [] then text else DefaultAnalysisPrompt
    case None => DefaultAnalysisPrompt
  }

  /** The one multimodal message `analyze_screen` posts. */
  datatype VisionRequest = VisionRequest(
    endpoint: string, authorization: string, model: string,
    prompt: string, imageUrl: string, maxTokens: nat)

  const PngDataUriPrefix := "data:image/png;base64,"

  function VisionRequestFor(settings: CaptureSettings, imageBase64: string): (r: VisionRequest)
    ensures r.endpoint == settings.apiBaseUrl + ChatCompletionsPath
    ensures r.authorization == BearerPrefix + settings.apiKey
    ensures r.model == settings.modelName && r.maxTokens == AnalysisMaxTokens
    ensures r.prompt == PromptFor(settings.analysisPrompt)
    ensures StartsWith(r.imageUrl, PngDataUriPrefix) && r.imageUrl[|PngDataUriPrefix|..] == imageBase64
  {
    var endpoint := settings.apiBaseUrl + ChatCompletionsPath;
    var url := PngDataUriPrefix + imageBase64;
    assert url[..|PngDataUriPrefix|] == PngDataUriPrefix;
    VisionRequest(endpoint, BearerPrefix + settings.apiKey, settings.modelName,
                  PromptFor(settings.analysisPrompt), url, AnalysisMaxTokens)
  }

  /** The markers by which a rejection says the model does not accept images. */
  predicate IsVisionRejection(body: string) {
    Contains(body, "image_url") && Contains(body, "unknown variant")
  }

  /** The error for a non-success response: the vision hint, or the status with the whole body. */
  function ClassifyRejection(status: string, body: string): (msg: string)
    ensures IsVisionRejection(body) ==> msg == VisionUnsupportedMessage
    ensures !IsVisionRejection(body) ==> msg == ApiErrorMessage(status, body) && EndsWith(msg, body)
  {
    if IsVisionRejection(body) then VisionUnsupportedMessage else ApiErrorMessage(status, body)
  }

  /** The two kinds of rejection message cannot be confused: only the raw one starts with "API error (". */
  lemma {:induction false} RejectionKindsAreDistinct(status: string, body: string)
    ensures StartsWith(ClassifyRejection(status, body), "API error (") <==> !IsVisionRejection(body)
  {
    var m := ApiErrorMessage(status, body);
    assert m[..|"API error ("|] == "API error (";
    assert VisionUnsupportedMessage[0] == VisionUnsupportedHead[0] == '当';
    assert "API error ("[0] == 'A';
  }

  /** A rejection body of the kind a text-only model returns for an image part. */
  const VisionRejectionBody :=
    "{\"error\":{\"message\":\"" + "unknown variant" + " `" + "image_url" + "`, expected `text`\"}}"

  /** Such a rejection gets the vision hint. */
  lemma {:induction false} VisionRejectionExample()
    ensures ClassifyRejection("400 Bad Request", VisionRejectionBody) == VisionUnsupportedMessage
  {
    var p, u, m, i, e := "{\"error\":{\"message\":\"", "unknown variant", " `", "image_url", "`, expected `text`\"}}";
    assert VisionRejectionBody == p + u + (m + i + e);
    ContainsInfix(p, u, m + i + e);
    assert VisionRejectionBody == (p + u + m) + i + e;
    ContainsInfix(p + u + m, i, e);
  }

  const Fence := "```"
  const JsonFence := Fence + "json"

  /** A "```json" opening is also a "```" opening. */
  lemma {:induction false} JsonFenceOpensFence(t: string)
    requires StartsWith(t, JsonFence)
    ensures StartsWith(t, Fence)
  {
    assert t[..|Fence|] == t[..|JsonFence|][..|Fence|];
    assert JsonFence[..|Fence|] == Fence;
  }

  /**
   * The fence stripping before parsing: trim; remove a leading "```json", or
   * else a leading "```"; after a removal, drop every trailing "```" and trim again.
   */
  function StripCodeFence(content: string): (r: string)
    ensures IsTrimmed(r)
    ensures !StartsWith(Trim(content), Fence) ==> r == Trim(content)
  {
    var t := Trim(content);
    if StartsWith(t, JsonFence) then
      JsonFenceOpensFence(t);
      Trim(TrimEndMatches(t[|JsonFence|..], Fence))
    else if StartsWith(t, Fence) then Trim(TrimEndMatches(t[|Fence|..], Fence))
    else t
  }

  /** `text` wrapped in a fence on lines of its own, with or without the "json" tag. */
  function Fenced(text: string, tagged: bool): string {
    (if tagged then JsonFence else Fence) + "\n" + text + "\n" + Fence
  }

  /** Stripping undoes fencing, for a tagged and for a bare fence alike. */
  lemma {:induction false} StripFencedRoundTrip(text: string, tagged: bool)
    requires IsTrimmed(text)
    ensures StripCodeFence(Fenced(text, tagged)) == text
  {
    var f := Fenced(text, tagged);
    var inner := "\n" + text + "\n";
    FencedIsTrimmed(text, tagged);
    TrimmedIsFixed(f);
    OpeningFence(text, tagged);
    TrimEndMatchesClosingFence(text);
    TrimOfPadded("\n", text, "\n");
  }

  /** Which opening the fence stripper recognises in a fenced text, and what follows it. */
  lemma {:induction false} OpeningFence(text: string, tagged: bool)
    ensures var f := Fenced(text, tagged);
            var rest := "\n" + text + "\n" + Fence;
            && (tagged ==> StartsWith(f, JsonFence) && f[|JsonFence|..] == rest)
            && (!tagged ==> !StartsWith(f, JsonFence) && StartsWith(f, Fence) && f[|Fence|..] == rest)
  {
    var f := Fenced(text, tagged);
    var rest := "\n" + text + "\n" + Fence;
    if tagged {
      assert f == JsonFence + rest;
      PrefixOf(JsonFence, rest);
    } else {
      assert f == Fence + rest;
      PrefixOf(Fence, rest);
      assert f[3] == '\n' && JsonFence[3] == 'j';
    }
  }

  lemma {:induction false} FencedIsTrimmed(text: string, tagged: bool)
    ensures IsTrimmed(Fenced(text, tagged))
  {
    var f := Fenced(text, tagged);
    assert f[0] == '`';
    assert f[|f| - 1] == '`';
  }

  lemma {:induction false} TrimmedIsFixed(s: string)
    requires IsTrimmed(s)
    ensures Trim(s) == s
  {
    assert AllWhitespace([]);
    assert s == [] + s + [];
    TrimOfPadded([], s, []);
  }

  lemma {:induction false} PrefixOf(p: string, rest: string)
    ensures StartsWith(p + rest, p) && (p + rest)[|p|..] == rest
  {
    assert (p + rest)[..|p|] == p;
  }

  lemma {:induction false} TrimEndMatchesClosingFence(text: string)
    ensures TrimEndMatches("\n" + text + "\n" + Fence, Fence) == "\n" + text + "\n"
  {
    var inner := "\n" + text + "\n";
    var s := inner + Fence;
    assert s[|s| - |Fence|..] == Fence;
    assert s[..|s| - |Fence|] == inner;
    assert inner[|inner| - 1] == '\n';
    assert !EndsWith(inner, Fence);
  }

  /** Text with no fence and no surrounding white space passes through unchanged. */
  lemma {:induction false} StripUnfencedUnchanged(text: string)
    requires IsTrimmed(text) && !StartsWith(text, Fence)
    ensures StripCodeFence(text) == text
  {
    TrimmedIsFixed(text);
  }

  /** The three fence cases the source checks. */
  lemma {:induction false} StripCodeFenceExamples()
    ensures StripCodeFence("```json\n{\"a\":1}\n```") == "{\"a\":1}"
    ensures StripCodeFence("```\n{\"a\":1}\n```") == "{\"a\":1}"
    ensures StripCodeFence("{\"a\":1}") == "{\"a\":1}"
  {
    var j := "{\"a\":1}";
    ExampleIsTrimmed();
    StripFencedRoundTrip(j, true);
    TaggedExampleIsFenced();
    StripFencedRoundTrip(j, false);
    BareExampleIsFenced();
    StripUnfencedUnchanged(j);
  }

  lemma {:induction false} ExampleIsTrimmed()
    ensures IsTrimmed("{\"a\":1}") && !StartsWith("{\"a\":1}", Fence)
  {
    var j := "{\"a\":1}";
    assert j[0] == '{' && j[|j| - 1] == '}';
  }

  lemma {:induction false} TaggedExampleIsFenced()
    ensures Fenced("{\"a\":1}", true) == "```json\n{\"a\":1}\n```"
  {
  }

  lemma {:induction false} BareExampleIsFenced()
    ensures Fenced("{\"a\":1}", false) == "```\n{\"a\":1}\n```"
  {
  }

  /** The error for a reply that does not parse; it carries the text that was parsed. */
  function ParseFailureMessage(cause: string, content: string): (msg: string)
    ensures EndsWith(msg, content)
  {
    "Failed to parse analysis: " + cause + ". Content: " + content
  }

  /**
   * `analyze_screen` after the request is sent: `reply` is what the service
   * answered to `VisionRequestFor(settings, imageBase64)`, and `parse` is the
   * JSON decoder of a `ScreenAnalysis`.
   */
  function AnalyzeScreen(reply: Reply, parse: string -> Result<ScreenAnalysis, string>): (a: Result<ScreenAnalysis, string>)
    ensures a.Success? <==>
      reply.Accepted? && reply.payload.Content? && parse(StripCodeFence(reply.payload.text)).Success?
    ensures a.Success? ==> a.value == parse(StripCodeFence(reply.payload.text)).value
    ensures reply.Rejected? ==> a == Failure(ClassifyRejection(reply.status, reply.body))
    ensures reply.SendFailed? ==> a == Failure(SendFailedMessage(reply.cause))
    ensures reply.Accepted? && !reply.payload.Content? ==>
      a == Failure(if reply.payload.Unparsable? then UnparsableMessage(reply.payload.cause) else NoContentMessage)
  {
    match reply
    case SendFailed(cause) => Failure(SendFailedMessage(cause))
    case Rejected(status, body) => Failure(ClassifyRejection(status, body))
    case Accepted(Unparsable(cause)) => Failure(UnparsableMessage(cause))
    case Accepted(ContentMissing) => Failure(NoContentMessage)
    case Accepted(Content(text)) =>
      var content := StripCodeFence(text);
      match parse(content)
      case Success(analysis) => Success(analysis)
      case Failure(cause) => Failure(ParseFailureMessage(cause, content))
  }

  /** A reply that does not parse is reported with the text that was tried, never without it. */
  lemma {:induction false} MalformedReplyKeepsText(text: string, parse: string -> Result<ScreenAnalysis, string>)
    requires parse(StripCodeFence(text)).Failure?
    ensures AnalyzeScreen(Accepted(Content(text)), parse).Failure?
    ensures EndsWith(AnalyzeScreen(Accepted(Content(text)), parse).error, StripCodeFence(text))
  {
  }

  /** The reply "not json" that fails to parse surfaces with "not json" in its message. */
  lemma {:induction false} NotJsonExample(parse: string -> Result<ScreenAnalysis, string>)
    requires parse("not json").Failure?
    ensures AnalyzeScreen(Accepted(Content("not json")), parse).Failure?
    ensures EndsWith(AnalyzeScreen(Accepted(Content("not json")), parse).error, "not json")
  {
    StripUnfencedUnchanged("not json");
  }
}
