/**
 * The Anthropic and OpenAI endpoints (internal/handler/anthropic.go and openai.go). The two files share one skeleton;
 * `Api` selects the prompt extractor, the request split and the output format.
 */
module Handler {
  import opened Sequences
  import opened Strings
  import opened Json
  import opened Framing
  import opened Translate
  import opened Streaming
  import opened StreamTheorems
  import opened StreamContents

  datatype Api = AnthropicApi | OpenAIApi

  datatype Mode = Strict | Fast | Audit | Unknown

  /** A Vertex AI call: a body, or the successive reads of a stream, or an error. */
  datatype Called<T> = Got(value: T) | Failed(reason: string)

  /** A plain HTTP error: `http.Error(w, message, status)`. */
  datatype HttpReply = HttpReply(status: int, message: string)

  datatype ParsedBody = Parsed(fields: Object) | TooLarge | Malformed(error: string)

  /**
   * Everything a request meets, each as an arbitrary answer: authentication and the user-agent check (`None` is a
   * pass, a reply is a rejection), the policy and the two screenings (a reason is a denial or a block), and Vertex AI.
   */
  datatype Env = Env(
    isPost: bool, authError: Option<HttpReply>, agentError: Option<HttpReply>, body: ParsedBody,
    fallbackModel: string, mode: Mode,
    policy: (string, bool) -> Option<string>,
    screenPrompt: string -> Option<string>,
    screenResponse: string -> Option<string>,
    callJSON: GeminiRequest -> Called<string>,
    callStream: GeminiRequest -> Called<seq<string>>,
    decode: Decoder, id: string, created: int)

  datatype Effect =
    | Authenticated
    | AgentAllowed
    | PolicyAllowed
    | PromptScreened(text: string, verdict: Option<string>)
    | VertexCalled(request: GeminiRequest)
    | ResponseScreened(text: string, verdict: Option<string>)
    | Logged(action: string)
    | HttpError(reply: HttpReply)
    | ApiError(reason: string)
    | JsonMessage(api: Api, msg: Object)
    | AnthropicStream(anthropic: seq<AnthropicEvent>)
    | OpenAIStream(openai: seq<OpenAIEvent>)

  // ----- the OpenAI request split

  predicate IsSystem(m: Value) {
    m.Obj? && Get(m.fields, "role") == Str("system")
  }

  function KeepNonSystem(m: Value): seq<Value> {
    if m.Obj? && !IsSystem(m) then [m] else []
  }

  /** The string content of the last system message; a non-string content counts as empty. */
  function SystemText(msgs: seq<Value>): string {
    if msgs == [] then ""
    else
      var m := msgs[|msgs| - 1];
      if IsSystem(m) then StrVal(Get(m.fields, "content"), "") else SystemText(msgs[..|msgs| - 1])
  }

  method SplitMessages(body: Object) returns (system: string, nonSystem: seq<Value>)
    ensures system == SystemText(AsArray(Get(body, "messages")))
    ensures nonSystem == FlatMap(KeepNonSystem, AsArray(Get(body, "messages")))
  {
    system, nonSystem := "", [];
    var msgs := AsArray(Get(body, "messages"));
    for i := 0 to |msgs|
      invariant system == SystemText(msgs[..i]) && nonSystem == FlatMap(KeepNonSystem, msgs[..i])
    {
      FlatMapNext(KeepNonSystem, msgs, i);
      assert msgs[..i + 1][..i] == msgs[..i];
      if msgs[i].Obj? {
        if Get(msgs[i].fields, "role") == Str("system") {
          system := StrVal(Get(msgs[i].fields, "content"), "");
        } else {
          nonSystem := nonSystem + [msgs[i]];
        }
      }
    }
    assert msgs[..|msgs|] == msgs;
  }

  // ----- what is screened and what is forwarded

  function Prompt(api: Api, body: Object): string {
    if api == AnthropicApi then AnthropicPrompt(body) else OpenAIPrompt(body)
  }

  function System(api: Api, body: Object): string {
    if api == AnthropicApi then StrVal(Get(body, "system"), "") else SystemText(AsArray(Get(body, "messages")))
  }

  function Conversation(api: Api, body: Object): seq<Value> {
    var msgs := AsArray(Get(body, "messages"));
    if api == AnthropicApi then msgs else FlatMap(KeepNonSystem, msgs)
  }

  function Forwarded(api: Api, body: Object): GeminiRequest {
    GeminiRequest(SystemTurns(System(api, body)) + FlatMap(TurnOf, Conversation(api, body)), GenerationConfig(body))
  }

  // ----- the text a client receives

  function TextOfBlock(block: Value): seq<string> {
    [StrVal(Get(AsObject(block), "text"), "")]
  }

  function ChoiceText(msg: Object): string {
    StrVal(Get(AsObject(Get(AsObject(First(AsArray(Get(msg, "choices")))), "message")), "content"), "")
  }

  /** The model text an effect writes to the client. */
  function Delivered(e: Effect): string {
    match e
    case JsonMessage(AnthropicApi, msg) => Concat(FlatMap(TextOfBlock, AsArray(Get(msg, "content"))))
    case JsonMessage(OpenAIApi, msg) => ChoiceText(msg)
    case AnthropicStream(events) => Concat(FlatMap(AnthropicText, events))
    case OpenAIStream(events) => Concat(FlatMap(OpenAIText, events))
    case _ => ""
  }

  lemma ConcatOne(text: string)
    ensures Concat([text]) == text
  {
    assert Concat([text]) == text + "";
  }

  lemma TranslatedAnthropic(response: Object, model: string, env: Env)
    ensures Delivered(JsonMessage(AnthropicApi, TranslateGeminiToAnthropic(response, model, env.id)))
      == ExtractGeminiText(response)
  {
    var content := AsArray(Get(TranslateGeminiToAnthropic(response, model, env.id), "content"));
    assert content == [content[0]];
    FlatMapOne(TextOfBlock, content[0]);
    ConcatOne(ExtractGeminiText(response));
  }

  lemma TranslatedOpenAI(response: Object, model: string, env: Env)
    ensures
      var msg := TranslateGeminiToOpenAI(response, model, env.id, env.created);
      AsArray(Get(msg, "choices")) != [] && Delivered(JsonMessage(OpenAIApi, msg)) == ExtractGeminiText(response)
  {
  }

  lemma {:induction false} BlockEventTexts(content: seq<Value>, n: nat)
    requires n <= |content|
    ensures FlatMap(AnthropicText, BlockEvents(content, n)) == FlatMap(TextOfBlock, content[..n])
  {
    if n > 0 {
      var text := StrVal(Get(AsObject(content[n - 1]), "text"), "");
      BlockEventTexts(content, n - 1);
      ThreeEvents(BlockStart(n - 1), BlockDelta(n - 1, text), BlockStop(n - 1));
      var block := [BlockStart(n - 1), BlockDelta(n - 1, text), BlockStop(n - 1)];
      FlatMapAppend(AnthropicText, BlockEvents(content, n - 1), block);
      FlatMapNext(TextOfBlock, content, n - 1);
    }
  }

  lemma ThreeEvents(a: AnthropicEvent, b: AnthropicEvent, c: AnthropicEvent)
    ensures FlatMap(AnthropicText, [a, b, c]) == AnthropicText(a) + AnthropicText(b) + AnthropicText(c)
  {
    FlatMapOne(AnthropicText, a);
    FlatMapOne(AnthropicText, b);
    FlatMapOne(AnthropicText, c);
    assert [a, b, c] == [a] + [b] + [c];
    FlatMapAppend(AnthropicText, [a], [b]);
    FlatMapAppend(AnthropicText, [a] + [b], [c]);
  }

  /** Written as an event stream, a message delivers the same text as written as JSON. */
  lemma AnthropicStreamText(msg: Object)
    ensures Delivered(AnthropicStream(AnthropicSSE(msg))) == Delivered(JsonMessage(AnthropicApi, msg))
  {
    var usage, content := AsObject(Get(msg, "usage")), AsArray(Get(msg, "content"));
    BlockEventTexts(content, |content|);
    assert content[..|content|] == content;
    Framed(MessageStart(Get(msg, "id"), Get(msg, "model"), IntVal(Get(usage, "input_tokens"))),
           BlockEvents(content, |content|),
           MessageDelta(Get(msg, "stop_reason"), IntVal(Get(usage, "output_tokens"))), MessageStop);
  }

  lemma Framed(first: AnthropicEvent, middle: seq<AnthropicEvent>, last: AnthropicEvent, end: AnthropicEvent)
    requires AnthropicText(first) == AnthropicText(last) == AnthropicText(end) == []
    ensures FlatMap(AnthropicText, [first] + middle + [last, end]) == FlatMap(AnthropicText, middle)
  {
    FlatMapOne(AnthropicText, first);
    FlatMapOne(AnthropicText, last);
    FlatMapOne(AnthropicText, end);
    assert [last, end] == [last] + [end];
    FlatMapAppend(AnthropicText, [last], [end]);
    FlatMapAppend(AnthropicText, [first], middle);
    FlatMapAppend(AnthropicText, [first] + middle, [last, end]);
  }

  lemma OpenAIStreamText(msg: Object)
    requires AsArray(Get(msg, "choices")) != []
    ensures Delivered(OpenAIStream(OpenAISSE(msg))) == Delivered(JsonMessage(OpenAIApi, msg))
  {
    var e := OpenAISSE(msg);
    TwoSilent(e[0], e[1], e[2]);
    assert e == [e[0], e[1], e[2]];
    ConcatOne(ChoiceText(msg));
  }

  lemma TwoSilent(a: OpenAIEvent, b: OpenAIEvent, c: OpenAIEvent)
    requires OpenAIText(b) == [] && OpenAIText(c) == []
    ensures FlatMap(OpenAIText, [a, b, c]) == OpenAIText(a)
  {
    FlatMapOne(OpenAIText, a);
    FlatMapOne(OpenAIText, b);
    FlatMapOne(OpenAIText, c);
    assert [a, b, c] == [a] + [b] + [c];
    FlatMapAppend(OpenAIText, [a], [b]);
    FlatMapAppend(OpenAIText, [a] + [b], [c]);
  }

  // ----- what is promised of a trace

  ghost predicate NoCall(trace: seq<Effect>) {
    forall n :: 0 <= n < |trace| ==> !trace[n].VertexCalled?
  }

  ghost predicate ScreenedBefore(trace: seq<Effect>, n: int)
    requires 0 <= n < |trace|
  {
    exists m :: 0 <= m < n && trace[m] == ResponseScreened(Delivered(trace[n]), None)
  }

  /** Model text is written only after exactly that text has passed response screening. */
  ghost predicate ScreenedFirst(trace: seq<Effect>) {
    forall n :: 0 <= n < |trace| && Delivered(trace[n]) != "" ==> ScreenedBefore(trace, n)
  }

  ghost predicate NeverScreened(trace: seq<Effect>) {
    forall n :: 0 <= n < |trace| ==> !trace[n].ResponseScreened?
  }

  ghost predicate ScreenedLater(trace: seq<Effect>, n: int)
    requires 0 <= n < |trace|
  {
    exists m :: n < m < |trace| && trace[m].ResponseScreened? && trace[m].text == Delivered(trace[n])
  }

  ghost predicate DeliveredEarlier(trace: seq<Effect>, m: int, text: string)
    requires 0 <= m < |trace|
  {
    exists n :: 0 <= n < m && Delivered(trace[n]) == text
  }

  ghost predicate AllScreenedLater(trace: seq<Effect>) {
    forall n :: 0 <= n < |trace| && Delivered(trace[n]) != "" ==> ScreenedLater(trace, n)
  }

  ghost predicate AllDeliveredEarlier(trace: seq<Effect>) {
    forall m :: 0 <= m < |trace| && trace[m].ResponseScreened? ==> DeliveredEarlier(trace, m, trace[m].text)
  }

  /** Model text that was written is screened afterwards, and nothing else is. */
  ghost predicate Audited(trace: seq<Effect>) {
    AllScreenedLater(trace) && AllDeliveredEarlier(trace)
  }

  predicate IsReply(e: Effect) {
    e.HttpError? || e.ApiError? || e.JsonMessage? || e.AnthropicStream? || e.OpenAIStream?
  }

  ghost predicate AtMostOneReply(trace: seq<Effect>) {
    forall i, j :: 0 <= i < j < |trace| && IsReply(trace[i]) ==> !IsReply(trace[j])
  }

  predicate IsStream(body: Object) {
    Get(body, "stream") == Bool(true)
  }

  function Model(env: Env, body: Object): string {
    StrVal(Get(body, "model"), env.fallbackModel)
  }

  /** All gates open for this request. */
  ghost predicate Passes(api: Api, env: Env) {
    && env.isPost && env.authError == None && env.agentError == None && env.body.Parsed?
    && env.policy(Model(env, env.body.fields), IsStream(env.body.fields)) == None
    && env.screenPrompt(Prompt(api, env.body.fields)) == None
  }

  /** The effects of a request whose gates are all open, before Vertex AI is called. */
  function Gates(api: Api, body: Object): seq<Effect> {
    [Authenticated, AgentAllowed, PolicyAllowed, PromptScreened(Prompt(api, body), None)]
  }

  /** Vertex AI is called once, right after all gates, with the request made from the body that was screened. */
  ghost predicate Gated(api: Api, env: Env, trace: seq<Effect>) {
    forall n :: 0 <= n < |trace| && trace[n].VertexCalled? ==>
      && env.body.Parsed? && n == 4 && trace[..4] == Gates(api, env.body.fields)
      && trace[4] == VertexCalled(Forwarded(api, env.body.fields))
  }

  /** How a request is answered: a plain HTTP error, an error message, a message with model text, or not at all. */
  datatype Answer =
    | Status(reply: HttpReply)
    | Refusal(reason: string)
    | Text(stream: bool, model: string, text: string)
    | Silence

  /** The message names this model wherever its format has a place for it. */
  ghost predicate Names(e: Effect, model: string) {
    match e
    case JsonMessage(_, msg) => Get(msg, "model") == Str(model)
    case AnthropicStream(events) => forall a :: a in events && a.MessageStart? ==> a.model == Str(model)
    case OpenAIStream(events) => forall o :: o in events && o.ChatChunk? ==> o.model == Str(model)
    case _ => false
  }

  predicate HasForm(api: Api, stream: bool, e: Effect) {
    if !stream then e.JsonMessage? && e.api == api
    else if api == AnthropicApi then e.AnthropicStream? else e.OpenAIStream?
  }

  ghost predicate Answers(api: Api, e: Effect, a: Answer) {
    match a
    case Status(reply) => e == HttpError(reply)
    case Refusal(reason) => e == ApiError(reason)
    case Text(stream, model, text) => HasForm(api, stream, e) && Names(e, model) && Delivered(e) == text
    case Silence => false
  }

  /** The client receives this answer and nothing else. */
  ghost predicate Answered(api: Api, trace: seq<Effect>, a: Answer) {
    && AtMostOneReply(trace)
    && ((exists n :: 0 <= n < |trace| && Answers(api, trace[n], a)) || (a == Silence && Quiet(trace)))
  }

  ghost predicate Quiet(trace: seq<Effect>) {
    forall n :: 0 <= n < |trace| ==> !IsReply(trace[n])
  }

  /** Effects whose last one is the only reply. */
  ghost predicate EndsWith(api: Api, trace: seq<Effect>, a: Answer) {
    && trace != [] && Answers(api, trace[|trace| - 1], a)
    && forall n :: 0 <= n < |trace| - 1 ==> !IsReply(trace[n])
  }

  /** Exactly these actions are logged. */
  ghost predicate Logs(trace: seq<Effect>, actions: set<string>) {
    forall a :: Logged(a) in trace <==> a in actions
  }

  lemma LogsBoth(first: seq<Effect>, second: seq<Effect>, a: set<string>, b: set<string>)
    requires Logs(first, a) && Logs(second, b)
    ensures Logs(first + second, a + b)
  {
  }

  /** The model's own prompt filter: the field holding its verdict, whatever that is. */
  predicate BlockedByModel(response: Object) {
    Get(response, "promptFeedback").Obj? && Get(Get(response, "promptFeedback").fields, "blockReason") != Null
  }

  /** What a live request is answered with: the model's text as it comes. */
  function LiveAnswer(env: Env, request: GeminiRequest, model: string, stream: bool): Answer {
    if stream then
      match env.callStream(request)
      case Failed(reason) => Refusal(reason)
      case Got(input) => Text(true, model, Concat(AllDeltas(TranscriptOf(env.decode, input))))
    else
      match Response(env, request)
      case Failed(reason) => Refusal(reason)
      case Got(response) => Text(false, model, ExtractGeminiText(response))
  }

  /** Strict mode withholds text the model's filter or the response screening blocks. */
  function StrictAnswer(env: Env, request: GeminiRequest, model: string, stream: bool): Answer {
    match Response(env, request)
    case Failed(reason) => Refusal(reason)
    case Got(response) =>
      if BlockedByModel(response) then Refusal("Model Armor: " + BlockMessage(response))
      else ScreenedAnswer(env, ExtractGeminiText(response), model, stream)
  }

  function ScreenedAnswer(env: Env, text: string, model: string, stream: bool): Answer {
    if text != "" && env.screenResponse(text).Some? then Refusal(env.screenResponse(text).value)
    else Text(stream, model, text)
  }

  function StrictActions(env: Env, request: GeminiRequest): set<string> {
    match Response(env, request)
    case Failed(_) => {}
    case Got(response) =>
      if BlockedByModel(response) then {"MODEL_ARMOR_BLOCK"} else ScreenedActions(env, ExtractGeminiText(response))
  }

  function ScreenedActions(env: Env, text: string): set<string> {
    if text != "" && env.screenResponse(text).Some? then {"BLOCK_RESPONSE"} else {"ALLOW"}
  }

  function LiveActions(action: string, a: Answer): set<string> {
    if a.Text? then {action} else {}
  }

  function AuditActions(env: Env, text: string): set<string> {
    if text != "" && env.screenResponse(text).Some? then {"BLOCK_RESPONSE_AUDIT"} else {}
  }

  function BlockMessage(response: Object): string {
    StrVal(Get(AsObject(Get(response, "promptFeedback")), "blockReasonMessage"), "")
  }

  function Response(env: Env, request: GeminiRequest): Called<Object> {
    match env.callJSON(request)
    case Failed(reason) => Failed(reason)
    case Got(bytes) =>
      match env.decode(bytes)
      case None => Failed("vertex response decode error")
      case Some(response) => Got(response)
  }

  // ----- the mode handlers: their effects after the call

  lemma {:induction false} BlocksNameless(content: seq<Value>, n: nat)
    requires n <= |content|
    ensures forall e :: e in BlockEvents(content, n) ==> !e.MessageStart?
  {
    if n > 0 { BlocksNameless(content, n - 1); }
  }

  lemma StreamNames(msg: Object, model: string)
    requires Get(msg, "model") == Str(model)
    ensures Names(AnthropicStream(AnthropicSSE(msg)), model)
    ensures AsArray(Get(msg, "choices")) != [] ==> Names(OpenAIStream(OpenAISSE(msg)), model)
  {
    var content := AsArray(Get(msg, "content"));
    BlocksNameless(content, |content|);
  }

  method WriteReply(api: Api, msg: Object, model: string, stream: bool) returns (e: Effect)
    requires api == OpenAIApi ==> AsArray(Get(msg, "choices")) != []
    requires Get(msg, "model") == Str(model)
    ensures Delivered(e) == Delivered(JsonMessage(api, msg)) && HasForm(api, stream, e) && Names(e, model)
  {
    StreamNames(msg, model);
    if !stream {
      e := JsonMessage(api, msg);
    } else if api == AnthropicApi {
      AnthropicStreamText(msg);
      var events := WriteAnthropicSSE(msg);
      e := AnthropicStream(events);
    } else {
      OpenAIStreamText(msg);
      e := OpenAIStream(OpenAISSE(msg));
    }
  }

  method WriteMessage(api: Api, env: Env, response: Object, model: string, stream: bool) returns (e: Effect)
    ensures Answers(api, e, Text(stream, model, ExtractGeminiText(response)))
  {
    if api == AnthropicApi {
      TranslatedAnthropic(response, model, env);
      e := WriteReply(api, TranslateGeminiToAnthropic(response, model, env.id), model, stream);
    } else {
      TranslatedOpenAI(response, model, env);
      e := WriteReply(api, TranslateGeminiToOpenAI(response, model, env.id, env.created), model, stream);
    }
  }

  /** The response of a non-streaming call, or why there is none. */
  method CallAndDecode(env: Env, request: GeminiRequest) returns (response: Called<Object>)
    ensures response == Response(env, request)
  {
    var bytes := env.callJSON(request);
    if bytes.Failed? {
      return Failed(bytes.reason);
    }
    var decoded := env.decode(bytes.value);
    if decoded == None {
      return Failed("vertex response decode error");
    }
    response := Got(decoded.value);
  }

  method ServeStrict(api: Api, env: Env, request: GeminiRequest, model: string, stream: bool)
    returns (tail: seq<Effect>)
    ensures NoCall(tail) && ScreenedFirst(tail)
    ensures EndsWith(api, tail, StrictAnswer(env, request, model, stream))
    ensures Logs(tail, StrictActions(env, request))
  {
    var response := CallAndDecode(env, request);
    if response.Failed? {
      return [ApiError(response.reason)];
    }
    if BlockedByModel(response.value) {
      var feedback := Get(response.value, "promptFeedback").fields;
      var message := StrVal(Get(feedback, "blockReasonMessage"), "");
      return [Logged("MODEL_ARMOR_BLOCK"), ApiError("Model Armor: " + message)];
    }
    tail := ScreenAndWrite(api, env, response.value, model, stream);
  }

  method ScreenAndWrite(api: Api, env: Env, response: Object, model: string, stream: bool) returns (tail: seq<Effect>)
    ensures NoCall(tail) && ScreenedFirst(tail)
    ensures EndsWith(api, tail, ScreenedAnswer(env, ExtractGeminiText(response), model, stream))
    ensures Logs(tail, ScreenedActions(env, ExtractGeminiText(response)))
  {
    var text := ExtractGeminiText(response);
    var verdict := None;
    if text != "" {
      verdict := env.screenResponse(text);
      if verdict.Some? {
        return [ResponseScreened(text, verdict), Logged("BLOCK_RESPONSE"), ApiError(verdict.value)];
      }
    }
    var e := WriteMessage(api, env, response, model, stream);
    if text == "" {
      AllowedSilently(api, model, stream, e);
      tail := [Logged("ALLOW"), e];
    } else {
      AllowedScreened(api, text, model, stream, e);
      tail := [ResponseScreened(text, verdict), Logged("ALLOW"), e];
    }
  }

  lemma AllowedSilently(api: Api, model: string, stream: bool, e: Effect)
    requires Answers(api, e, Text(stream, model, ""))
    ensures
      var tail := [Logged("ALLOW"), e];
      NoCall(tail) && ScreenedFirst(tail) && EndsWith(api, tail, Text(stream, model, "")) && Logs(tail, {"ALLOW"})
  {
  }

  lemma AllowedScreened(api: Api, text: string, model: string, stream: bool, e: Effect)
    requires Answers(api, e, Text(stream, model, text))
    ensures
      var tail := [ResponseScreened(text, None), Logged("ALLOW"), e];
      NoCall(tail) && ScreenedFirst(tail) && EndsWith(api, tail, Text(stream, model, text)) && Logs(tail, {"ALLOW"})
  {
    var tail := [ResponseScreened(text, None), Logged("ALLOW"), e];
    assert tail[0] == ResponseScreened(Delivered(e), None);
  }

  function TextOf(a: Answer): string {
    if a.Text? then a.text else ""
  }

  /** The shared part of the fast and audit handlers: everything is written as it comes; returns the text written. */
  method ServeLive(api: Api, env: Env, request: GeminiRequest, model: string, stream: bool, action: string)
    returns (tail: seq<Effect>, accumulated: string)
    ensures NoCall(tail) && NeverScreened(tail)
    ensures EndsWith(api, tail, LiveAnswer(env, request, model, stream))
    ensures accumulated == TextOf(LiveAnswer(env, request, model, stream))
    ensures Logs(tail, LiveActions(action, LiveAnswer(env, request, model, stream)))
  {
    if stream {
      var rc := env.callStream(request);
      if rc.Failed? {
        return [ApiError(rc.reason)], "";
      }
      var e;
      e, accumulated := WriteStream(api, env, rc.value, model);
      tail := [Logged(action), e];
    } else {
      var response := CallAndDecode(env, request);
      if response.Failed? {
        return [ApiError(response.reason)], "";
      }
      var e := WriteMessage(api, env, response.value, model, false);
      tail, accumulated := [Logged(action), e], ExtractGeminiText(response.value);
    }
  }

  /** Live translation; the text returned for auditing is the text written. */
  method WriteStream(api: Api, env: Env, input: seq<string>, model: string) returns (e: Effect, accumulated: string)
    ensures HasForm(api, true, e) && Names(e, model)
    ensures Delivered(e) == accumulated == Concat(AllDeltas(TranscriptOf(env.decode, input)))
  {
    var l := Labels(env.id, env.created, model);
    StreamLabelled(l, TranscriptOf(env.decode, input));
    if api == AnthropicApi {
      var events, text := StreamGeminiAsAnthropic(env.decode, input, l);
      AnthropicDelivers(l, TranscriptOf(env.decode, input));
      e, accumulated := AnthropicStream(events), text;
    } else {
      var events, text := StreamGeminiAsOpenAI(env.decode, input, l);
      OpenAIDelivers(l, TranscriptOf(env.decode, input));
      e, accumulated := OpenAIStream(events), text;
    }
  }

  /** What the audit adds after the reply: the screening of the text written, whose verdict is only logged. */
  function AuditTrail(env: Env, text: string): seq<Effect> {
    var verdict := env.screenResponse(text);
    if text == "" then []
    else if verdict.Some? then [ResponseScreened(text, verdict), Logged("BLOCK_RESPONSE_AUDIT")]
    else [ResponseScreened(text, verdict)]
  }

  method AuditResponse(env: Env, text: string) returns (trail: seq<Effect>)
    ensures trail == AuditTrail(env, text) && Logs(trail, AuditActions(env, text))
  {
    trail := [];
    if text != "" {
      var verdict := env.screenResponse(text);
      trail := [ResponseScreened(text, verdict)];
      if verdict.Some? {
        trail := trail + [Logged("BLOCK_RESPONSE_AUDIT")];
      }
    }
  }

  lemma TrailAudited(api: Api, env: Env, live: seq<Effect>, a: Answer)
    requires EndsWith(api, live, a) && NeverScreened(live)
    ensures Audited(live + AuditTrail(env, TextOf(a)))
  {
    var trail, k := AuditTrail(env, TextOf(a)), |live|;
    var tail := live + trail;
    assert forall n :: 0 <= n < k - 1 ==> tail[n] == live[n];
    assert tail[k - 1] == live[k - 1] && Delivered(live[k - 1]) == TextOf(a);
    assert forall n :: k <= n < |tail| ==> tail[n] == trail[n - k];
    forall n | 0 <= n < |tail| && Delivered(tail[n]) != "" ensures ScreenedLater(tail, n) {
      assert n == k - 1 && tail[k].ResponseScreened? && tail[k].text == Delivered(tail[n]);
    }
    forall m | 0 <= m < |tail| && tail[m].ResponseScreened? ensures DeliveredEarlier(tail, m, tail[m].text) {
      assert m == k && Delivered(tail[k - 1]) == TextOf(a);
    }
  }

  /** Effects that end with the reply, and none after them, answer the client just so. */
  lemma EndsAnswered(api: Api, live: seq<Effect>, after: seq<Effect>, a: Answer)
    requires EndsWith(api, live, a) && Quiet(after)
    ensures Answered(api, live + after, a)
  {
    var trace, k := live + after, |live| - 1;
    assert trace[k] == live[k];
    forall n | 0 <= n < |trace| && n != k ensures !IsReply(trace[n]) {
      if n < k {
        assert trace[n] == live[n];
      } else {
        assert trace[n] == after[n - k - 1];
      }
    }
  }

  lemma EndAnswered(api: Api, live: seq<Effect>, a: Answer)
    requires EndsWith(api, live, a)
    ensures Answered(api, live, a)
  {
    EndsAnswered(api, live, [], a);
    assert live + [] == live;
  }

  lemma TrailAnswered(api: Api, env: Env, live: seq<Effect>, a: Answer)
    requires EndsWith(api, live, a) && NoCall(live)
    ensures NoCall(live + AuditTrail(env, TextOf(a))) && Answered(api, live + AuditTrail(env, TextOf(a)), a)
  {
    EndsAnswered(api, live, AuditTrail(env, TextOf(a)), a);
  }

  /** What a request that reached Vertex AI has logged. */
  function ModeActions(env: Env, request: GeminiRequest, model: string, stream: bool): set<string> {
    var live := LiveAnswer(env, request, model, stream);
    match env.mode
    case Strict => StrictActions(env, request)
    case Fast => LiveActions("ALLOW_FAST", live)
    case Audit => LiveActions("ALLOW_AUDIT", live) + AuditActions(env, TextOf(live))
    case Unknown => {}
  }

  /** How a request that reached Vertex AI is answered. */
  function ModeAnswer(env: Env, request: GeminiRequest, model: string, stream: bool): Answer {
    match env.mode
    case Strict => StrictAnswer(env, request, model, stream)
    case Fast => LiveAnswer(env, request, model, stream)
    case Audit => LiveAnswer(env, request, model, stream)
    case Unknown => Silence
  }

  method ServeAudit(api: Api, env: Env, request: GeminiRequest, model: string, stream: bool) returns (tail: seq<Effect>)
    ensures NoCall(tail) && Audited(tail)
    ensures Answered(api, tail, LiveAnswer(env, request, model, stream))
    ensures
      var live := LiveAnswer(env, request, model, stream);
      Logs(tail, LiveActions("ALLOW_AUDIT", live) + AuditActions(env, TextOf(live)))
  {
    var live, accumulated := ServeLive(api, env, request, model, stream, "ALLOW_AUDIT");
    TrailAudited(api, env, live, LiveAnswer(env, request, model, stream));
    TrailAnswered(api, env, live, LiveAnswer(env, request, model, stream));
    var trail := AuditResponse(env, accumulated);
    ghost var live', trail' :=
      LiveActions("ALLOW_AUDIT", LiveAnswer(env, request, model, stream)), AuditActions(env, accumulated);
    LogsBoth(live, trail, live', trail');
    tail := live + trail;
  }

  // ----- the endpoint

  method BuildRequest(api: Api, body: Object) returns (request: GeminiRequest)
    ensures request == Forwarded(api, body)
  {
    var config := ExtractGenerationConfig(body);
    if api == AnthropicApi {
      request := TranslateToGemini(body, StrVal(Get(body, "system"), ""), config);
    } else {
      var system, nonSystem := SplitMessages(body);
      request := TranslateToGemini(map["messages" := Arr(nonSystem)], system, config);
    }
  }

  method ExtractPrompt(api: Api, body: Object) returns (prompt: string)
    ensures prompt == Prompt(api, body)
  {
    if api == AnthropicApi {
      prompt := ExtractAnthropicPrompt(body);
    } else {
      prompt := ExtractOpenAIPrompt(body);
    }
  }

  /** The answer of the first gate that does not open; `Silence` when all do. */
  function Rejection(api: Api, env: Env): Answer {
    if !env.isPost then Status(HttpReply(405, "method not allowed"))
    else if env.authError.Some? then Status(env.authError.value)
    else if env.agentError.Some? then Status(env.agentError.value)
    else
      match env.body
      case TooLarge => Status(HttpReply(413, "request body exceeds size limit"))
      case Malformed(error) => Status(HttpReply(400, "invalid json: " + error))
      case Parsed(body) =>
        match env.policy(Model(env, body), IsStream(body))
        case Some(reason) => Status(HttpReply(403, reason))
        case None =>
          match env.screenPrompt(Prompt(api, body))
          case Some(reason) => Refusal(reason)
          case None => Silence
  }

  /** No model text, and Vertex AI not called. */
  predicate IsGateEffect(e: Effect) {
    e.Authenticated? || e.AgentAllowed? || e.PolicyAllowed? || e.PromptScreened? || e.Logged? || e.HttpError?
      || e.ApiError?
  }

  /** What a request has logged before Vertex AI is called. */
  function GateActions(api: Api, env: Env): set<string> {
    if !env.isPost || env.authError.Some? || env.agentError.Some? || !env.body.Parsed? then {}
    else if env.policy(Model(env, env.body.fields), IsStream(env.body.fields)).Some? then {"DENY_POLICY"}
    else if env.screenPrompt(Prompt(api, env.body.fields)).Some? then {"BLOCK_PROMPT"}
    else {}
  }

  /** What the gates promise. */
  ghost predicate Checked(api: Api, env: Env, trace: seq<Effect>, open: bool) {
    && (open <==> Passes(api, env))
    && (open ==> trace == Gates(api, env.body.fields))
    && (forall n :: 0 <= n < |trace| ==> IsGateEffect(trace[n]))
    && (!open ==> EndsWith(api, trace, Rejection(api, env)))
    && Logs(trace, GateActions(api, env))
  }

  method CheckGates(api: Api, env: Env) returns (trace: seq<Effect>, open: bool)
    ensures Checked(api, env, trace, open)
  {
    if !env.isPost {
      return [HttpError(HttpReply(405, "method not allowed"))], false;
    }
    if env.authError.Some? {
      return [HttpError(env.authError.value)], false;
    }
    if env.agentError.Some? {
      return [Authenticated, HttpError(env.agentError.value)], false;
    }
    match env.body {
      case TooLarge =>
        var reply := HttpReply(413, "request body exceeds size limit");
        trace, open := [Authenticated, AgentAllowed, HttpError(reply)], false;
      case Malformed(error) =>
        trace, open := [Authenticated, AgentAllowed, HttpError(HttpReply(400, "invalid json: " + error))], false;
      case Parsed(body) =>
        trace, open := CheckContent(api, env, body);
    }
  }

  ghost predicate AtPolicy(env: Env, body: Object) {
    env.isPost && env.authError == None && env.agentError == None && env.body == Parsed(body)
  }

  lemma CheckedDenied(api: Api, env: Env, body: Object, reason: string)
    requires AtPolicy(env, body) && env.policy(Model(env, body), IsStream(body)) == Some(reason)
    ensures
      var trace := [Authenticated, AgentAllowed, Logged("DENY_POLICY"), HttpError(HttpReply(403, reason))];
      Checked(api, env, trace, false)
  {
  }

  lemma CheckedBlocked(api: Api, env: Env, body: Object, prompt: string, verdict: Option<string>)
    requires AtPolicy(env, body) && env.policy(Model(env, body), IsStream(body)) == None
    requires prompt == Prompt(api, body) && verdict == env.screenPrompt(prompt) && verdict.Some?
    ensures
      var trace := [Authenticated, AgentAllowed, PolicyAllowed, PromptScreened(prompt, verdict), Logged("BLOCK_PROMPT"),
                    ApiError(verdict.value)];
      Checked(api, env, trace, false)
  {
  }

  lemma CheckedOpen(api: Api, env: Env, body: Object)
    requires AtPolicy(env, body) && env.policy(Model(env, body), IsStream(body)) == None
    requires env.screenPrompt(Prompt(api, body)) == None
    ensures Checked(api, env, Gates(api, body), true)
  {
  }

  /** The policy and the prompt screening. */
  method CheckContent(api: Api, env: Env, body: Object) returns (trace: seq<Effect>, open: bool)
    requires AtPolicy(env, body)
    ensures Checked(api, env, trace, open)
  {
    var denial := env.policy(StrVal(Get(body, "model"), env.fallbackModel), IsStream(body));
    if denial.Some? {
      CheckedDenied(api, env, body, denial.value);
      return [Authenticated, AgentAllowed, Logged("DENY_POLICY"), HttpError(HttpReply(403, denial.value))], false;
    }
    var prompt := ExtractPrompt(api, body);
    var verdict := env.screenPrompt(prompt);
    if verdict.Some? {
      CheckedBlocked(api, env, body, prompt, verdict);
      return [Authenticated, AgentAllowed, PolicyAllowed, PromptScreened(prompt, verdict), Logged("BLOCK_PROMPT"),
              ApiError(verdict.value)], false;
    }
    CheckedOpen(api, env, body);
    trace, open := [Authenticated, AgentAllowed, PolicyAllowed, PromptScreened(prompt, verdict)], true;
  }

  ghost function ExpectedAnswer(api: Api, env: Env): Answer {
    if !Passes(api, env) then Rejection(api, env)
    else
      var body := env.body.fields;
      ModeAnswer(env, Forwarded(api, body), Model(env, body), IsStream(body))
  }

  ghost function ExpectedActions(api: Api, env: Env): set<string> {
    if !Passes(api, env) then GateActions(api, env)
    else
      var body := env.body.fields;
      ModeActions(env, Forwarded(api, body), Model(env, body), IsStream(body))
  }

  /** What each mode promises about response screening. */
  ghost predicate ScreenedForMode(mode: Mode, trace: seq<Effect>) {
    match mode
    case Strict => ScreenedFirst(trace)
    case Fast => NeverScreened(trace)
    case Audit => Audited(trace)
    case Unknown => true
  }

  /**
   * The switch over the configured mode. A mode that is not known does nothing at all; any other calls Vertex AI, and
   * `tail` is what follows that call.
   */
  method Dispatch(api: Api, env: Env, request: GeminiRequest, model: string, stream: bool)
    returns (called: bool, tail: seq<Effect>)
    ensures called <==> env.mode != Unknown
    ensures called ==> NoCall(tail) && ScreenedForMode(env.mode, tail)
    ensures called ==> Answered(api, tail, ModeAnswer(env, request, model, stream))
    ensures called ==> Logs(tail, ModeActions(env, request, model, stream))
    ensures !called ==> tail == []
  {
    called, tail := env.mode != Unknown, [];
    match env.mode {
      case Strict =>
        tail := ServeStrict(api, env, request, model, stream);
        EndAnswered(api, tail, ModeAnswer(env, request, model, stream));
      case Fast =>
        var accumulated;
        tail, accumulated := ServeLive(api, env, request, model, stream, "ALLOW_FAST");
        EndAnswered(api, tail, ModeAnswer(env, request, model, stream));
      case Audit =>
        tail := ServeAudit(api, env, request, model, stream);
      case Unknown =>
    }
  }

  /** The promises of a run of an endpoint. */
  ghost predicate Served(api: Api, env: Env, trace: seq<Effect>) {
    && Gated(api, env, trace)
    && (NoCall(trace) <==> !Passes(api, env) || env.mode == Unknown)
    && ScreenedForMode(env.mode, trace)
    && Answered(api, trace, ExpectedAnswer(api, env))
    && Logs(trace, ExpectedActions(api, env))
  }

  method Serve(api: Api, env: Env) returns (trace: seq<Effect>)
    ensures Served(api, env, trace)
  {
    var gates, open := CheckGates(api, env);
    if !open {
      ServedAtGates(api, env, gates);
      return gates;
    }
    var body := env.body.fields;
    var stream, model := IsStream(body), StrVal(Get(body, "model"), env.fallbackModel);
    var request := BuildRequest(api, body);
    var called, tail := Dispatch(api, env, request, model, stream);
    if called {
      ServedByVertex(api, env, tail);
      trace := gates + [VertexCalled(request)] + tail;
    } else {
      ServedAtGates(api, env, gates);
      trace := gates;
    }
  }

  lemma GatesScreened(mode: Mode, gates: seq<Effect>)
    requires forall n :: 0 <= n < |gates| ==> IsGateEffect(gates[n])
    ensures ScreenedForMode(mode, gates)
  {
    assert forall n :: 0 <= n < |gates| ==> Delivered(gates[n]) == "" && !gates[n].ResponseScreened?;
  }

  lemma GatesAnswered(api: Api, env: Env, gates: seq<Effect>)
    requires StoppedAtGates(api, env, gates)
    ensures Answered(api, gates, ExpectedAnswer(api, env))
  {
    if !Passes(api, env) {
      EndAnswered(api, gates, Rejection(api, env));
    } else {
      assert Quiet(gates);
    }
  }

  ghost predicate StoppedAtGates(api: Api, env: Env, gates: seq<Effect>) {
    if Passes(api, env) then env.mode == Unknown && gates == Gates(api, env.body.fields)
    else EndsWith(api, gates, Rejection(api, env))
  }

  lemma GatesLogged(api: Api, env: Env, gates: seq<Effect>)
    requires StoppedAtGates(api, env, gates) && Logs(gates, GateActions(api, env))
    ensures Logs(gates, ExpectedActions(api, env))
  {
  }

  lemma GatesCallNothing(api: Api, env: Env, gates: seq<Effect>)
    requires forall n :: 0 <= n < |gates| ==> IsGateEffect(gates[n])
    ensures NoCall(gates) && Gated(api, env, gates)
  {
  }

  lemma ServedAtGates(api: Api, env: Env, gates: seq<Effect>)
    requires StoppedAtGates(api, env, gates) && Logs(gates, GateActions(api, env))
    requires forall n :: 0 <= n < |gates| ==> IsGateEffect(gates[n])
    ensures Served(api, env, gates)
  {
    GatesCallNothing(api, env, gates);
    GatesScreened(env.mode, gates);
    GatesAnswered(api, env, gates);
    GatesLogged(api, env, gates);
  }

  lemma ServedByVertex(api: Api, env: Env, tail: seq<Effect>)
    requires Passes(api, env) && env.mode != Unknown && NoCall(tail) && ScreenedForMode(env.mode, tail)
    requires Answered(api, tail, ExpectedAnswer(api, env)) && Logs(tail, ExpectedActions(api, env))
    ensures
      var body := env.body.fields;
      Served(api, env, Gates(api, body) + [VertexCalled(Forwarded(api, body))] + tail)
  {
    var call := VertexCalled(Forwarded(api, env.body.fields));
    var before := Gates(api, env.body.fields) + [call];
    BeforeQuiet(api, env.body.fields, call);
    CallPlaced(api, env, before, tail);
    ScreeningShift(env.mode, before, tail);
    AnswerShift(api, before, tail, ExpectedAnswer(api, env));
    LogsShift(before, tail, ExpectedActions(api, env));
  }

  lemma ScreeningShift(mode: Mode, before: seq<Effect>, tail: seq<Effect>)
    requires ScreenedForMode(mode, tail)
    requires forall n :: 0 <= n < |before| ==> Delivered(before[n]) == "" && !before[n].ResponseScreened?
    ensures ScreenedForMode(mode, before + tail)
  {
    match mode
    case Strict => ScreenedShift(before, tail);
    case Fast => NeverShift(before, tail);
    case Audit => AllLaterShift(before, tail); AllEarlierShift(before, tail);
    case Unknown =>
  }

  lemma BeforeQuiet(api: Api, body: Object, call: Effect)
    requires call.VertexCalled?
    ensures
      var before := Gates(api, body) + [call];
      forall n :: 0 <= n < |before| ==>
        Delivered(before[n]) == "" && !before[n].ResponseScreened? && !IsReply(before[n]) && !before[n].Logged?
  {
    var before := Gates(api, body) + [call];
    assert before == [Authenticated, AgentAllowed, PolicyAllowed, PromptScreened(Prompt(api, body), None), call];
  }

  lemma LogsShift(before: seq<Effect>, tail: seq<Effect>, actions: set<string>)
    requires Logs(tail, actions) && forall n :: 0 <= n < |before| ==> !before[n].Logged?
    ensures Logs(before + tail, actions)
  {
  }

  lemma AnswerShift(api: Api, before: seq<Effect>, tail: seq<Effect>, a: Answer)
    requires Answered(api, tail, a) && Quiet(before)
    ensures Answered(api, before + tail, a)
  {
    var trace, k := before + tail, |before|;
    assert forall n :: 0 <= n < k ==> trace[n] == before[n];
    assert forall n :: k <= n < |trace| ==> trace[n] == tail[n - k];
    if n :| 0 <= n < |tail| && Answers(api, tail[n], a) {
      assert trace[k + n] == tail[n];
    }
  }

  lemma NeverShift(before: seq<Effect>, tail: seq<Effect>)
    requires NeverScreened(tail) && forall n :: 0 <= n < |before| ==> !before[n].ResponseScreened?
    ensures NeverScreened(before + tail)
  {
  }

  lemma CallPlaced(api: Api, env: Env, before: seq<Effect>, tail: seq<Effect>)
    requires env.body.Parsed? && NoCall(tail)
    requires before == Gates(api, env.body.fields) + [VertexCalled(Forwarded(api, env.body.fields))]
    ensures Gated(api, env, before + tail) && !NoCall(before + tail)
  {
    var trace := before + tail;
    assert |before| == 5 && trace[4] == before[4] && trace[..4] == Gates(api, env.body.fields);
    forall n | 0 <= n < |trace| && n != 4 ensures !trace[n].VertexCalled? {
      if n < 4 {
        assert trace[n] == Gates(api, env.body.fields)[n];
      } else {
        assert trace[n] == tail[n - 5];
      }
    }
  }

  lemma ScreenedShift(before: seq<Effect>, tail: seq<Effect>)
    requires forall n :: 0 <= n < |before| ==> Delivered(before[n]) == ""
    ensures ScreenedFirst(tail) ==> ScreenedFirst(before + tail)
  {
    var trace, k := before + tail, |before|;
    if ScreenedFirst(tail) {
      forall n | 0 <= n < |trace| && Delivered(trace[n]) != "" ensures ScreenedBefore(trace, n) {
        assert n >= k && trace[n] == tail[n - k];
        assert ScreenedBefore(tail, n - k);
        var m :| 0 <= m < n - k && tail[m] == ResponseScreened(Delivered(tail[n - k]), None);
        assert trace[k + m] == tail[m];
      }
    }
  }

  lemma LaterShift(before: seq<Effect>, tail: seq<Effect>, n: nat)
    requires n < |tail| && ScreenedLater(tail, n)
    ensures ScreenedLater(before + tail, |before| + n)
  {
    var m :| n < m < |tail| && tail[m].ResponseScreened? && tail[m].text == Delivered(tail[n]);
    assert (before + tail)[|before| + m] == tail[m] && (before + tail)[|before| + n] == tail[n];
  }

  lemma EarlierShift(before: seq<Effect>, tail: seq<Effect>, m: nat, text: string)
    requires m < |tail| && DeliveredEarlier(tail, m, text)
    ensures DeliveredEarlier(before + tail, |before| + m, text)
  {
    var n :| 0 <= n < m && Delivered(tail[n]) == text;
    assert (before + tail)[|before| + n] == tail[n];
  }

  /** Where an effect of the whole trace comes from. */
  lemma Origin(before: seq<Effect>, tail: seq<Effect>, n: nat)
    requires n < |before + tail|
    ensures (before + tail)[n] == if n < |before| then before[n] else tail[n - |before|]
  {
  }

  lemma AllLaterShift(before: seq<Effect>, tail: seq<Effect>)
    requires AllScreenedLater(tail) && forall n :: 0 <= n < |before| ==> Delivered(before[n]) == ""
    ensures AllScreenedLater(before + tail)
  {
    var trace, k := before + tail, |before|;
    forall n | 0 <= n < |trace| && Delivered(trace[n]) != "" ensures ScreenedLater(trace, n) {
      Origin(before, tail, n);
      LaterShift(before, tail, n - k);
    }
  }

  lemma AllEarlierShift(before: seq<Effect>, tail: seq<Effect>)
    requires AllDeliveredEarlier(tail) && forall n :: 0 <= n < |before| ==> !before[n].ResponseScreened?
    ensures AllDeliveredEarlier(before + tail)
  {
    var trace, k := before + tail, |before|;
    forall m | 0 <= m < |trace| && trace[m].ResponseScreened? ensures DeliveredEarlier(trace, m, trace[m].text) {
      Origin(before, tail, m);
      EarlierShift(before, tail, m - k, tail[m - k].text);
    }
  }

  // ----- the screened prompt covers what is forwarded

  lemma {:induction false} NonSystemSubsequence(msgs: seq<Value>)
    ensures Subsequence(FlatMap(KeepNonSystem, msgs), msgs)
  {
    if msgs != [] {
      NonSystemSubsequence(msgs[1..]);
      var rest := FlatMap(KeepNonSystem, msgs[1..]);
      if KeepNonSystem(msgs[0]) == [] {
        assert [] + rest == rest;
      } else {
        assert ([msgs[0]] + rest)[1..] == rest;
      }
    }
  }

  lemma {:induction false} SystemIsAMessage(msgs: seq<Value>)
    ensures
      || SystemText(msgs) == ""
      || exists k :: 0 <= k < |msgs| && msgs[k].Obj? && MessageText(msgs[k].fields) == SystemText(msgs)
  {
    if msgs != [] {
      var n := |msgs| - 1;
      if IsSystem(msgs[n]) {
        if SystemText(msgs) != "" { assert MessageText(msgs[n].fields) == SystemText(msgs); }
      } else {
        SystemIsAMessage(msgs[..n]);
        if SystemText(msgs) != "" {
          var k :| 0 <= k < n && msgs[..n][k].Obj? && MessageText(msgs[..n][k].fields) == SystemText(msgs);
          assert MessageText(msgs[k].fields) == SystemText(msgs);
        }
      }
    }
  }

  /**
   * Coverage, both endpoints: the conversation turns forwarded to Vertex AI occur in the screened prompt one after
   * another, in message order.
   */
  lemma ConversationScreened(api: Api, body: Object)
    ensures Embedded(TurnTexts(FlatMap(TurnOf, Conversation(api, body))), Prompt(api, body))
  {
    var msgs := AsArray(Get(body, "messages"));
    if api == AnthropicApi { SubsequenceRefl(msgs); } else { NonSystemSubsequence(msgs); }
    TurnsEmbedded(Conversation(api, body), msgs);
    if api == OpenAIApi && !Get(body, "messages").Arr? {
      EmbeddedNothing(Prompt(api, body));
    }
  }

  lemma EmbeddedNothing(hay: string)
    ensures Embedded([], hay)
  {
  }

  /** The one fixed text the proxy adds. */
  ghost predicate Acknowledgement(api: Api, body: Object, k: nat) {
    System(api, body) != "" && k == 1
  }

  lemma {:induction false} TurnTextAt(turns: seq<Turn>, k: nat)
    requires k < |turns|
    ensures k < |TurnTexts(turns)| && TurnTexts(turns)[k] == turns[k].text
  {
    if k > 0 { TurnTextAt(turns[1..], k - 1); }
  }

  lemma TurnEmbedded(turns: seq<Turn>, prompt: string, k: nat)
    requires Embedded(TurnTexts(turns), prompt) && k < |turns|
    ensures Substring(turns[k].text, prompt)
  {
    TurnTextAt(turns, k);
    EmbeddedEach(TurnTexts(turns), prompt, k);
  }

  lemma TurnScreened(api: Api, body: Object, k: nat)
    requires k < |Forwarded(api, body).contents| && !Acknowledgement(api, body, k)
    requires Substring(System(api, body), Prompt(api, body))
    ensures Substring(Forwarded(api, body).contents[k].text, Prompt(api, body))
  {
    var system, turns := SystemTurns(System(api, body)), FlatMap(TurnOf, Conversation(api, body));
    if k >= |system| {
      ConversationScreened(api, body);
      TurnEmbedded(turns, Prompt(api, body), k - |system|);
    }
  }

  lemma EmptySubstring(hay: string)
    ensures Substring("", hay)
  {
    assert OccursAt("", hay, 0);
  }

  /** The text of every turn forwarded, the fixed acknowledgement excepted, is part of what was screened. */
  ghost predicate TurnsScreened(api: Api, body: Object) {
    forall k :: 0 <= k < |Forwarded(api, body).contents| && !Acknowledgement(api, body, k) ==>
      Substring(Forwarded(api, body).contents[k].text, Prompt(api, body))
  }

  /** So is every string in the generation parameters. */
  ghost predicate ConfigScreened(api: Api, body: Object) {
    var config := Forwarded(api, body).generationConfig;
    forall key, s :: key in config && Mentions(config[key], s) ==> Substring(s, Prompt(api, body))
  }

  /** Every string among the body's own stop sequences occurs in the prompt. */
  ghost predicate StopsInPrompt(api: Api, body: Object) {
    forall s :: Mentions(StopValue(body), s) ==> Substring(s, Prompt(api, body))
  }

  lemma ConfigCoverage(api: Api, body: Object)
    ensures ConfigScreened(api, body) <==> StopsInPrompt(api, body)
  {
    var config, prompt := Forwarded(api, body).generationConfig, Prompt(api, body);
    if StopsInPrompt(api, body) {
      forall key, s | key in config && Mentions(config[key], s) ensures Substring(s, prompt) {
        ConfigMentions(body, s);
      }
    }
    if ConfigScreened(api, body) {
      forall s | Mentions(StopValue(body), s) ensures Substring(s, prompt) {
        ConfigMentions(body, s);
      }
    }
  }

  lemma SystemScreened(body: Object)
    ensures Substring(System(OpenAIApi, body), Prompt(OpenAIApi, body))
  {
    var msgs := AsArray(Get(body, "messages"));
    SystemIsAMessage(msgs);
    if SystemText(msgs) == "" {
      EmptySubstring(Prompt(OpenAIApi, body));
    } else {
      var i :| 0 <= i < |msgs| && msgs[i].Obj? && MessageText(msgs[i].fields) == SystemText(msgs);
      MessageInPrompt(msgs, i);
    }
  }

  lemma TurnCoverage(api: Api, body: Object)
    ensures TurnsScreened(api, body) <==> Substring(System(api, body), Prompt(api, body))
  {
    var system, contents := System(api, body), Forwarded(api, body).contents;
    if Substring(system, Prompt(api, body)) {
      forall k | 0 <= k < |contents| && !Acknowledgement(api, body, k)
        ensures Substring(contents[k].text, Prompt(api, body))
      {
        TurnScreened(api, body, k);
      }
    } else {
      if system == "" { EmptySubstring(Prompt(api, body)); }
      assert contents[0].text == system && !Acknowledgement(api, body, 0);
    }
  }

  /**
   * OpenAI coverage: every turn, system text included, is part of what was screened. Everything forwarded is exactly
   * when the stop sequences occur there too.
   */
  lemma OpenAICoverage(body: Object)
    ensures TurnsScreened(OpenAIApi, body)
    ensures TurnsScreened(OpenAIApi, body) && ConfigScreened(OpenAIApi, body) <==> StopsInPrompt(OpenAIApi, body)
  {
    SystemScreened(body);
    TurnCoverage(OpenAIApi, body);
    ConfigCoverage(OpenAIApi, body);
  }

  /**
   * Anthropic coverage: the top-level `system` text is forwarded but not extracted, no more than the stop sequences, so
   * both are covered only by chance.
   */
  lemma AnthropicCoverage(body: Object)
    ensures
      TurnsScreened(AnthropicApi, body) && ConfigScreened(AnthropicApi, body) <==>
      Substring(System(AnthropicApi, body), Prompt(AnthropicApi, body)) && StopsInPrompt(AnthropicApi, body)
    ensures TurnsScreened(AnthropicApi, body) <==> Substring(System(AnthropicApi, body), Prompt(AnthropicApi, body))
  {
    TurnCoverage(AnthropicApi, body);
    ConfigCoverage(AnthropicApi, body);
  }

  /**
   * So screening can be missed altogether: any system text, sent with no messages, is forwarded and the prompt is
   * empty.
   */
  lemma SystemUnscreened(system: string)
    requires system != ""
    ensures
      var body: Object := map["system" := Str(system), "messages" := Arr([])];
      && Forwarded(AnthropicApi, body).contents == [Turn("user", system), Turn("model", "Understood.")]
      && Prompt(AnthropicApi, body) == "" && !Substring(system, Prompt(AnthropicApi, body))
  {
    var body: Object := map["system" := Str(system), "messages" := Arr([])];
    assert FlatMap(TurnOf, AsArray(Get(body, "messages"))) == [];
    assert forall i :: !OccursAt(system, "", i);
  }

  /** The same with a stop sequence, on either endpoint. */
  lemma StopUnscreened(api: Api, stop: string)
    requires stop != ""
    ensures
      var body: Object := map["messages" := Arr([]), "stop" := Str(stop)];
      && "stopSequences" in Forwarded(api, body).generationConfig
      && Forwarded(api, body).generationConfig["stopSequences"] == Arr([Str(stop)])
      && Prompt(api, body) == "" && !Substring(stop, Prompt(api, body))
  {
    var body: Object := map["messages" := Arr([]), "stop" := Str(stop)];
    assert AsArray(Get(body, "messages")) == [];
    assert forall i :: !OccursAt(stop, "", i);
  }
}
