/** The generation endpoint (src/routes/api/generate/+server.ts): prompt
    construction, input validation, the provider payload, and the
    translation of the provider's answer into the caller's response. The
    provider call itself is an input: `Upstream` is what it returned. */
module Generate {
  import opened Wrappers
  import opened Seqs
  import opened Types
  import Knobs

  const Model: string := "z-ai/glm-4.6"
  const ProviderName: string := "cerebras"
  const ClosingInstruction: string :=
    "Transform the source text according to these cognitive parameters. Apply all parameters simultaneously to produce a modified version."
  const SourceTextRequired: string := "Source text is required"
  const RateLimitMessage: string := "Rate limit exceeded. Please try again later."
  const InvalidKeyMessage: string := "Invalid API key"
  const UpstreamFailurePrefix: string := "API request failed: "
  const InternalFailureMessage: string := "Failed to generate response"

  // ---------------------------------------------------------------- prompt

  /** One knob as the prompt lists it; `show` is JavaScript's number-to-string
      conversion, which this model does not define. */
  function KnobLine(knob: CognitiveKnob, show: real -> string): string
  {
    "- " + knob.name + ": " + show(knob.value) + "/100 (" + knob.description + ")"
  }

  /** The prompt's knob lines, one per knob, in the knobs' order. */
  function KnobLines(knobs: seq<CognitiveKnob>, show: real -> string): seq<string>
  {
    seq(|knobs|, i requires 0 <= i < |knobs| => KnobLine(knobs[i], show))
  }

  /** The knob lines joined by single newlines. */
  function KnobDescriptions(knobs: seq<CognitiveKnob>, show: real -> string): string
  {
    Join(KnobLines(knobs, show), "\n")
  }

  /** Reading the knob section back line by line gives exactly one line per
      knob, in the knobs' order, and no trailing empty line, as long as no
      knob's line itself holds a newline. */
  lemma KnobDescriptionLines(knobs: seq<CognitiveKnob>, show: real -> string)
    requires |knobs| > 0
    requires forall i | 0 <= i < |knobs| :: '\n' !in KnobLine(knobs[i], show)
    ensures |Split(KnobDescriptions(knobs, show), '\n')| == |knobs|
    ensures forall i | 0 <= i < |knobs| ::
              Split(KnobDescriptions(knobs, show), '\n')[i] == KnobLine(knobs[i], show)
  {
    SplitJoin(KnobLines(knobs, show), '\n');
  }

  /** The template's lines before the knob lines. */
  function PromptHeader(systemPrompt: string, sourceText: string): seq<string>
  {
    [systemPrompt, "", "SOURCE TEXT:", sourceText, "", "COGNITIVE PARAMETERS:"]
  }

  /** The template's lines after the knob lines. */
  function PromptFooter(): seq<string>
  {
    ["", ClosingInstruction]
  }

  /** `constructPrompt`: with no knobs the source text passes through
      untouched. Otherwise the template literal's nine lines (the system
      prompt, a blank line, `SOURCE TEXT:`, the source text, a blank line,
      `COGNITIVE PARAMETERS:`, the knob lines, a blank line, the closing
      instruction) joined by newlines, which is the header, one line per
      knob and the footer joined by newlines. */
  function ConstructPrompt(sourceText: string, knobs: seq<CognitiveKnob>, systemPrompt: string,
                           show: real -> string): (r: string)
    ensures knobs == [] ==> r == sourceText
    ensures knobs != [] ==>
              r == Join(PromptHeader(systemPrompt, sourceText) + KnobLines(knobs, show) + PromptFooter(), "\n")
  {
    if |knobs| == 0 then sourceText
    else
      var header, lines, footer := PromptHeader(systemPrompt, sourceText), KnobLines(knobs, show), PromptFooter();
      var template := [systemPrompt, "", "SOURCE TEXT:", sourceText, "", "COGNITIVE PARAMETERS:",
                       Join(lines, "\n"), "", ClosingInstruction];
      assert template == (header + [Join(lines, "\n")]) + footer;
      assert Join(template, "\n") == Join(header + lines + footer, "\n") by {
        JoinConcat(header + [Join(lines, "\n")], footer, "\n");
        JoinConcat(header, [Join(lines, "\n")], "\n");
        JoinConcat(header + lines, footer, "\n");
        JoinConcat(header, lines, "\n");
      }
      Join(template, "\n")
  }

  /** Reading a prompt back line by line gives the header, exactly one line
      per knob in the knobs' order, a blank line, and then the closing
      instruction, provided the system prompt, the source text and the knob
      lines hold no newline. */
  lemma PromptLines(sourceText: string, knobs: seq<CognitiveKnob>, systemPrompt: string, show: real -> string)
    requires knobs != []
    requires '\n' !in systemPrompt && '\n' !in sourceText
    requires forall i | 0 <= i < |knobs| :: '\n' !in KnobLine(knobs[i], show)
    ensures Split(ConstructPrompt(sourceText, knobs, systemPrompt, show), '\n')
            == PromptHeader(systemPrompt, sourceText) + KnobLines(knobs, show) + [""]
               + Split(ClosingInstruction, '\n')
  {
    var header, lines := PromptHeader(systemPrompt, sourceText), KnobLines(knobs, show);
    var body := header + lines + [""];
    assert header + lines + PromptFooter() == body + [ClosingInstruction];
    JoinConcat(body, [ClosingInstruction], "\n");
    assert forall i | 0 <= i < |body| :: '\n' !in body[i] by {
      HeaderHasNoNewline(systemPrompt, sourceText);
      forall i | 0 <= i < |body|
        ensures '\n' !in body[i]
      {
        if i < 6 {
          assert body[i] == header[i];
        } else if i < 6 + |knobs| {
          assert body[i] == lines[i - 6];
        }
      }
    }
    SplitJoinThen(body, ClosingInstruction, '\n');
  }

  /** The header's fixed lines hold no newline, so it has none when the
      system prompt and source text have none. */
  lemma HeaderHasNoNewline(systemPrompt: string, sourceText: string)
    requires '\n' !in systemPrompt && '\n' !in sourceText
    ensures forall i | 0 <= i < 6 :: '\n' !in PromptHeader(systemPrompt, sourceText)[i]
  {
    var h := PromptHeader(systemPrompt, sourceText);
    assert h[2] == "SOURCE TEXT:";
    assert h[5] == "COGNITIVE PARAMETERS:";
  }

  /** The worked example of the prompt format: one knob at 80, rendered as
      `- Abstraction: 80/100 (...)` between the fixed lines. */
  lemma OneKnobPrompt(show: real -> string)
    requires show(80.0) == "80"
    ensures ConstructPrompt("The cat sat.",
                            [CognitiveKnob("abstraction", "Abstraction", "...", 80.0, None, None)],
                            "Transform this.", show)
            == Join(["Transform this.", "", "SOURCE TEXT:", "The cat sat.", "", "COGNITIVE PARAMETERS:",
                     "- Abstraction: 80/100 (...)", "", ClosingInstruction], "\n")
  {
    var knob := CognitiveKnob("abstraction", "Abstraction", "...", 80.0, None, None);
    assert KnobLine(knob, show) == "- Abstraction: 80/100 (...)";
    assert KnobLines([knob], show) == ["- Abstraction: 80/100 (...)"];
  }

  // ------------------------------------------------------------ validation

  /** `String.prototype.trim` strips WhiteSpace and LineTerminator code points. */
  predicate IsJsWhiteSpace(c: char)
  {
    || c == '\t' || c == '\n' || c == '\U{000B}' || c == '\U{000C}' || c == '\r' || c == ' '
    || c == '\U{00A0}' || c == '\U{1680}' || ('\U{2000}' <= c <= '\U{200A}')
    || c == '\U{2028}' || c == '\U{2029}' || c == '\U{202F}' || c == '\U{205F}'
    || c == '\U{3000}' || c == '\U{FEFF}'
  }

  function TrimStart(s: string): (r: string)
    ensures |r| <= |s| && r == s[|s| - |r|..]
    ensures forall i | 0 <= i < |s| - |r| :: IsJsWhiteSpace(s[i])
    ensures r != [] ==> !IsJsWhiteSpace(r[0])
  {
    if |s| > 0 && IsJsWhiteSpace(s[0]) then TrimStart(s[1..]) else s
  }

  function TrimEnd(s: string): (r: string)
    ensures |r| <= |s| && r == s[..|r|]
    ensures forall i | |r| <= i < |s| :: IsJsWhiteSpace(s[i])
    ensures r != [] ==> !IsJsWhiteSpace(r[|r| - 1])
  {
    if |s| > 0 && IsJsWhiteSpace(s[|s| - 1]) then TrimEnd(s[..|s| - 1]) else s
  }

  /** `trim`: the text without leading and trailing white space; it is
      empty exactly when the text is all white space. */
  function Trim(s: string): (r: string)
    ensures r == "" <==> forall i | 0 <= i < |s| :: IsJsWhiteSpace(s[i])
    ensures r != "" ==> !IsJsWhiteSpace(r[0]) && !IsJsWhiteSpace(r[|r| - 1])
  {
    TrimEnd(TrimStart(s))
  }

  /** `!sourceText || !sourceText.trim()`: a source text is blank exactly
      when it is missing or all white space. */
  function IsBlank(sourceText: Option<string>): (b: bool)
    ensures b <==>
              sourceText.None? || forall i | 0 <= i < |sourceText.value| :: IsJsWhiteSpace(sourceText.value[i])
  {
    sourceText.None? || sourceText.value == "" || Trim(sourceText.value) == ""
  }

  // --------------------------------------------------------------- payload

  datatype Role = System | User | Assistant
  datatype Message = Message(role: Role, content: string)
  datatype ProviderRouting = ProviderRouting(only: seq<string>, allowFallbacks: bool)

  /** The chat-completion request body. A sampling field that the incoming
      request left out is `None`: it is `undefined`, which `JSON.stringify`
      drops from the body. */
  datatype Payload = Payload(
    model: string,
    provider: ProviderRouting,
    messages: seq<Message>,
    temperature: Option<real>,
    maxTokens: Option<real>,
    topP: Option<real>,
    frequencyPenalty: real,
    presencePenalty: real,
    reasoningEnabled: bool,
    stream: bool)

  /** `requestPayload`: the fixed model and routing (one backend, no
      fallback), a single user message carrying the prompt, three sampling
      fields copied as given, the penalties defaulting to 0, no reasoning,
      no streaming. */
  function BuildPayload(request: GenerationRequest, sourceText: string, show: real -> string): (p: Payload)
    ensures p.model == "z-ai/glm-4.6"
    ensures p.provider.only == ["cerebras"] && !p.provider.allowFallbacks
    ensures |p.messages| == 1 && p.messages[0].role == User
    ensures p.messages[0].content
            == ConstructPrompt(sourceText, request.cognitiveKnobs, request.systemPrompt, show)
    ensures p.temperature == request.parameters.temperature
    ensures p.maxTokens == request.parameters.maxTokens
    ensures p.topP == request.parameters.topP
    ensures request.parameters.frequencyPenalty.None? ==> p.frequencyPenalty == 0.0
    ensures request.parameters.frequencyPenalty.Some? ==>
              p.frequencyPenalty == request.parameters.frequencyPenalty.value
    ensures request.parameters.presencePenalty.None? ==> p.presencePenalty == 0.0
    ensures request.parameters.presencePenalty.Some? ==>
              p.presencePenalty == request.parameters.presencePenalty.value
    ensures !p.reasoningEnabled && !p.stream
  {
    var params := request.parameters;
    Payload(
      Model,
      ProviderRouting([ProviderName], false),
      [Message(User, ConstructPrompt(sourceText, request.cognitiveKnobs, request.systemPrompt, show))],
      params.temperature,
      params.maxTokens,
      params.topP,
      params.frequencyPenalty.GetOr(0.0),
      params.presencePenalty.GetOr(0.0),
      false,
      false)
  }

  /** The `parameters` object as the client sends it: every field present. */
  function RequestParametersOf(p: Knobs.SamplingParameters): RequestParameters
  {
    RequestParameters(Some(p.temperature), Some(p.maxTokens), Some(p.topP),
                      Some(p.frequencyPenalty), Some(p.presencePenalty))
  }

  /** Parameters derived by the knob store reach the provider unchanged. */
  lemma StoreParametersReachPayload(request: GenerationRequest, sourceText: string, show: real -> string,
                                    llmKnobs: seq<LLMKnob>)
    requires request.parameters == RequestParametersOf(Knobs.Parameters(llmKnobs))
    ensures var p := BuildPayload(request, sourceText, show);
            var d := Knobs.Parameters(llmKnobs);
            p.temperature == Some(d.temperature) && p.maxTokens == Some(d.maxTokens)
            && p.topP == Some(d.topP)
            && p.frequencyPenalty == d.frequencyPenalty && p.presencePenalty == d.presencePenalty
  {
  }

  // -------------------------------------------------------------- response

  /** What `response.json()` makes of an answer's body: it does not parse,
      it parses to `null`, or it parses to any other value. The distinction
      between the last two matters because the logging that follows reads
      `data.model`, which throws on `null` and on nothing else JSON can
      produce. */
  datatype BodyParse = NotJson | JsonNull | JsonValue

  /** What the provider call produced: it failed to complete, or it answered
      with a status, a body, and what parsing that body gives. */
  datatype Upstream =
    | Unreachable
    | Responded(status: int, body: string, parse: BodyParse)

  /** `response.ok`. */
  predicate IsOk(status: int)
  {
    200 <= status <= 299
  }

  /** What the handler's `try` block raises: the framework's HTTP error
      (`error(status, message)`), or any other exception. */
  datatype Raised = HttpError(status: int, message: string) | OtherException

  datatype Completion = Returned(json: string) | Threw(raised: Raised)

  /** The outbound request made (if any) and how the `try` block ended. */
  datatype Attempt = Attempt(sent: Option<Payload>, completion: Completion)

  /** What the caller receives: the provider's JSON, or an error status with
      its message. */
  datatype Outcome = Relayed(json: string) | Failed(status: int, message: string)

  datatype Exchange = Exchange(sent: Option<Payload>, outcome: Outcome)

  /** The error a non-ok provider status becomes; it always carries that
      same status. */
  function UpstreamError(status: int, body: string): (e: Raised)
    ensures e.HttpError? && e.status == status
    ensures e.message == if status == 429 then RateLimitMessage
                         else if status == 401 then InvalidKeyMessage
                         else UpstreamFailurePrefix + body
  {
    if status == 429 then HttpError(429, RateLimitMessage)
    else if status == 401 then HttpError(401, InvalidKeyMessage)
    else HttpError(status, UpstreamFailurePrefix + body)
  }

  /** The `try` block of `POST`. `body` is `None` when the request body is
      not JSON. A request goes out exactly when the body parses and its
      source text is not blank; the block returns only an ok answer that
      parses to a value other than `null`, unchanged; the HTTP errors it
      raises are the 400 for a blank text, before anything is sent, and the
      error a non-ok status maps to. */
  function Handle(body: Option<GenerationRequest>, upstream: Upstream, show: real -> string): (a: Attempt)
    ensures a.sent.Some? <==> body.Some? && !IsBlank(body.value.sourceText)
    ensures a.sent.Some? ==> a.sent.value == BuildPayload(body.value, body.value.sourceText.value, show)
    ensures a.completion.Returned? <==>
              a.sent.Some? && upstream.Responded? && IsOk(upstream.status) && upstream.parse.JsonValue?
    ensures a.completion.Returned? ==> a.completion.json == upstream.body
    ensures a.completion.Threw? && a.completion.raised.HttpError? ==>
              (a.sent.None? && a.completion.raised == HttpError(400, SourceTextRequired))
              || (a.sent.Some? && upstream.Responded? && !IsOk(upstream.status)
                  && a.completion.raised == UpstreamError(upstream.status, upstream.body))
  {
    match body
    case None =>
      Attempt(None, Threw(OtherException))
    case Some(request) =>
      if IsBlank(request.sourceText) then
        Attempt(None, Threw(HttpError(400, SourceTextRequired)))
      else
        var payload := BuildPayload(request, request.sourceText.value, show);
        Attempt(Some(payload),
          match upstream
          case Unreachable => Threw(OtherException)
          case Responded(status, text, parse) =>
            if !IsOk(status) then Threw(UpstreamError(status, text))
            else if parse.JsonValue? then Returned(text)
            else Threw(OtherException))
  }

  /** The `catch` block as written: it re-raises an error only when the
      error is an `Error` instance with a `status`. Whether the framework's
      HTTP error is an `Error` instance is decided outside this repository,
      so it is the parameter `httpErrorIsError`. */
  function CatchAsWritten(e: Raised, httpErrorIsError: bool): (o: Outcome)
    ensures o.Failed?
    ensures httpErrorIsError ==> o == CatchTagged(e)
    ensures !httpErrorIsError ==> o == Failed(500, InternalFailureMessage)
  {
    if e.HttpError? && httpErrorIsError then Failed(e.status, e.message)
    else Failed(500, InternalFailureMessage)
  }

  /** `POST` as written. */
  function Post(body: Option<GenerationRequest>, upstream: Upstream, show: real -> string,
                httpErrorIsError: bool): Exchange
  {
    var a := Handle(body, upstream, show);
    Exchange(a.sent,
      match a.completion
      case Returned(json) => Relayed(json)
      case Threw(e) => CatchAsWritten(e, httpErrorIsError))
  }

  /** The `catch` block with the error tagged rather than duck-typed: an HTTP
      error keeps its status and message, anything else is a 500. */
  function CatchTagged(e: Raised): (o: Outcome)
    ensures e.HttpError? ==> o == Failed(e.status, e.message)
    ensures e.OtherException? ==> o == Failed(500, InternalFailureMessage)
  {
    match e
    case HttpError(status, message) => Failed(status, message)
    case OtherException => Failed(500, InternalFailureMessage)
  }

  /** `POST` as intended: HTTP errors reach the caller with their status, so
      every error status the caller sees is the 400 for a blank text, the
      500 for an unexpected failure, or the provider's own non-ok status. */
  function PostTagged(body: Option<GenerationRequest>, upstream: Upstream, show: real -> string): (x: Exchange)
    ensures x.outcome.Failed? ==>
              x.outcome.status == 400 || x.outcome.status == 500
              || (upstream.Responded? && !IsOk(upstream.status) && x.outcome.status == upstream.status)
  {
    var a := Handle(body, upstream, show);
    Exchange(a.sent,
      match a.completion
      case Returned(json) => Relayed(json)
      case Threw(e) => CatchTagged(e))
  }

  /** When the framework's HTTP error does pass the duck-typed check, the
      code as written behaves as intended. */
  lemma AsWrittenAgreesWhenHttpErrorIsError(body: Option<GenerationRequest>, upstream: Upstream,
                                            show: real -> string)
    ensures Post(body, upstream, show, true) == PostTagged(body, upstream, show)
  {
  }

  /** Whatever the duck-typed test decides, the code as written sends the
      same request as intended (so a blank text sends nothing) and relays
      the same successful answers; the two differ only in error statuses. */
  lemma AsWrittenSendsAsIntended(body: Option<GenerationRequest>, upstream: Upstream, show: real -> string,
                                 httpErrorIsError: bool)
    ensures Post(body, upstream, show, httpErrorIsError).sent == PostTagged(body, upstream, show).sent
    ensures Post(body, upstream, show, httpErrorIsError).outcome.Relayed?
            <==> PostTagged(body, upstream, show).outcome.Relayed?
    ensures Post(body, upstream, show, httpErrorIsError).outcome.Relayed? ==>
              Post(body, upstream, show, httpErrorIsError).outcome == PostTagged(body, upstream, show).outcome
  {
  }

  /** When it does not, every error the handler raises reaches the caller as
      500 "Failed to generate response". */
  lemma AsWrittenCollapsesErrors(body: Option<GenerationRequest>, upstream: Upstream, show: real -> string)
    ensures Post(body, upstream, show, false).outcome.Failed? ==>
              Post(body, upstream, show, false).outcome == Failed(500, InternalFailureMessage)
  {
  }

  /** A concrete input: an empty source text is answered with 500 by the code
      as written, but with 400 as intended. */
  lemma BlankSourceAsWritten(show: real -> string, upstream: Upstream)
    ensures var body := Some(GenerationRequest(Some(""), [], "",
                               RequestParameters(None, None, None, None, None)));
            Post(body, upstream, show, false).outcome == Failed(500, InternalFailureMessage)
            && PostTagged(body, upstream, show).outcome == Failed(400, SourceTextRequired)
  {
  }

  /** A request goes out exactly when the body parses and its source text is
      not blank, and then it is the payload built from that body. */
  lemma SentOnlyWhenValid(body: Option<GenerationRequest>, upstream: Upstream, show: real -> string)
    ensures PostTagged(body, upstream, show).sent.Some? <==> body.Some? && !IsBlank(body.value.sourceText)
    ensures PostTagged(body, upstream, show).sent.Some? ==>
              PostTagged(body, upstream, show).sent.value
              == BuildPayload(body.value, body.value.sourceText.value, show)
  {
  }

  /** A blank source text is refused with 400 before anything is sent. */
  lemma BlankSourceRejected(request: GenerationRequest, upstream: Upstream, show: real -> string)
    requires IsBlank(request.sourceText)
    ensures PostTagged(Some(request), upstream, show) == Exchange(None, Failed(400, SourceTextRequired))
  {
  }

  /** A non-ok provider status reaches the caller as that status: 429 with
      the rate-limit message, 401 with "Invalid API key", any other with the
      provider's body after "API request failed: ". */
  lemma UpstreamStatusRelayed(request: GenerationRequest, status: int, text: string, parse: BodyParse,
                              show: real -> string)
    requires !IsBlank(request.sourceText) && !IsOk(status)
    ensures var o := PostTagged(Some(request), Responded(status, text, parse), show).outcome;
            o.Failed? && o.status == status
            && o.message == (if status == 429 then RateLimitMessage
                             else if status == 401 then InvalidKeyMessage
                             else UpstreamFailurePrefix + text)
  {
  }

  /** An ok provider answer that parses to a value other than `null` is
      relayed unmodified. */
  lemma SuccessRelayed(request: GenerationRequest, status: int, text: string, show: real -> string)
    requires !IsBlank(request.sourceText) && IsOk(status)
    ensures PostTagged(Some(request), Responded(status, text, JsonValue), show).outcome == Relayed(text)
  {
  }

  /** An ok answer whose body is `null` is not relayed: reading `data.model`
      for the log throws, and the caller gets 500, as written and as
      intended alike. */
  lemma NullAnswerIs500(request: GenerationRequest, status: int, text: string, show: real -> string,
                        httpErrorIsError: bool)
    requires !IsBlank(request.sourceText) && IsOk(status)
    ensures var upstream := Responded(status, text, JsonNull);
            Post(Some(request), upstream, show, httpErrorIsError).outcome == Failed(500, InternalFailureMessage)
            && PostTagged(Some(request), upstream, show).outcome == Failed(500, InternalFailureMessage)
  {
  }

  /** Anything else that goes wrong (the body is not JSON, the call does not
      complete, the answer does not parse or parses to `null`) is a 500 with
      the fixed message. */
  lemma UnexpectedFailuresAre500(body: Option<GenerationRequest>, upstream: Upstream, show: real -> string)
    requires body.None? || upstream.Unreachable? || (upstream.Responded? && IsOk(upstream.status) && !upstream.parse.JsonValue?)
    requires body.Some? ==> !IsBlank(body.value.sourceText)
    ensures PostTagged(body, upstream, show).outcome == Failed(500, InternalFailureMessage)
  {
  }
}
