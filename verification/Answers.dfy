/** What a client is answered and what is logged, case by case, in terms of the request and of what the proxy meets. */
module Answers {
  import opened Strings
  import opened Json
  import opened Framing
  import opened Translate
  import opened Streaming
  import opened Handler
  import Policy

  // ----- the request, field by field

  /** The model a body asks for. */
  function AskedModel(env: Env, body: Object): string {
    if Get(body, "model").Str? then Get(body, "model").s else env.fallbackModel
  }

  /** A stream is asked for only by the boolean true. */
  predicate AskedStream(body: Object) {
    "stream" in body && body["stream"] == Bool(true)
  }

  /** Past the method, the authentication and the user-agent check. */
  ghost predicate Admitted(env: Env) {
    env.isPost && env.authError == None && env.agentError == None
  }

  ghost predicate ReachesPolicy(env: Env) {
    Admitted(env) && env.body.Parsed?
  }

  function PolicyVerdict(env: Env): Option<string>
    requires env.body.Parsed?
  {
    env.policy(AskedModel(env, env.body.fields), AskedStream(env.body.fields))
  }

  ghost predicate ReachesScreening(env: Env) {
    ReachesPolicy(env) && PolicyVerdict(env) == None
  }

  ghost predicate ReachesVertex(api: Api, env: Env) {
    ReachesScreening(env) && env.screenPrompt(Prompt(api, env.body.fields)) == None
  }

  // ----- before Vertex AI

  /** The first gate that does not open gives the answer. */
  lemma GateAnswers(api: Api, env: Env)
    ensures !env.isPost ==> ExpectedAnswer(api, env) == Status(HttpReply(405, "method not allowed"))
    ensures env.isPost && env.authError.Some? ==> ExpectedAnswer(api, env) == Status(env.authError.value)
    ensures env.isPost && env.authError == None && env.agentError.Some? ==>
      ExpectedAnswer(api, env) == Status(env.agentError.value)
    ensures Admitted(env) && env.body.TooLarge? ==>
      ExpectedAnswer(api, env) == Status(HttpReply(413, "request body exceeds size limit"))
    ensures Admitted(env) && env.body.Malformed? ==>
      ExpectedAnswer(api, env) == Status(HttpReply(400, "invalid json: " + env.body.error))
    ensures ReachesPolicy(env) && PolicyVerdict(env).Some? ==>
      ExpectedAnswer(api, env) == Status(HttpReply(403, PolicyVerdict(env).value))
    ensures ReachesScreening(env) && env.screenPrompt(Prompt(api, env.body.fields)).Some? ==>
      ExpectedAnswer(api, env) == Refusal(env.screenPrompt(Prompt(api, env.body.fields)).value)
  {
  }

  /** Vertex AI is called exactly when all gates let the request through and the mode is known. */
  lemma CalledExactly(api: Api, env: Env, trace: seq<Effect>)
    requires Served(api, env, trace)
    ensures !NoCall(trace) <==> ReachesVertex(api, env) && env.mode != Unknown
  {
  }

  /** And before any call all gates have been passed, the screening with the prompt of this very body. */
  lemma CalledAfterGates(api: Api, env: Env, trace: seq<Effect>, n: nat)
    requires Served(api, env, trace) && n < |trace| && trace[n].VertexCalled?
    ensures env.body.Parsed?
    ensures Authenticated in trace[..n] && AgentAllowed in trace[..n] && PolicyAllowed in trace[..n]
    ensures PromptScreened(Prompt(api, env.body.fields), None) in trace[..n]
    ensures forall m :: 0 <= m < |trace| && m != n ==> !trace[m].VertexCalled?
  {
    var gates := trace[..n];
    assert gates[0] == Authenticated && gates[1] == AgentAllowed && gates[2] == PolicyAllowed;
    assert gates[3] == PromptScreened(Prompt(api, env.body.fields), None);
  }

  // ----- strict mode

  /** The model's own filter has given a reason to block. */
  ghost predicate HasBlockReason(response: Object) {
    && "promptFeedback" in response && response["promptFeedback"].Obj?
    && "blockReason" in response["promptFeedback"].fields
    && response["promptFeedback"].fields["blockReason"] != Null
  }

  function BlockReasonMessage(response: Object): string {
    var feedback := AsObject(Get(response, "promptFeedback"));
    if Get(feedback, "blockReasonMessage").Str? then Get(feedback, "blockReasonMessage").s else ""
  }

  lemma BlockedExactly(response: Object)
    ensures BlockedByModel(response) <==> HasBlockReason(response)
    ensures BlockMessage(response) == BlockReasonMessage(response)
  {
  }

  /** The response of Vertex AI to a whole request, if it is one. */
  ghost predicate Responds(api: Api, env: Env, response: Object) {
    && env.body.Parsed? && env.callJSON(Forwarded(api, env.body.fields)).Got?
    && env.decode(env.callJSON(Forwarded(api, env.body.fields)).value) == Some(response)
  }

  lemma RespondsResponse(api: Api, env: Env, response: Object)
    requires Responds(api, env, response)
    ensures Response(env, Forwarded(api, env.body.fields)) == Got(response)
  {
  }

  /** A call that fails, or whose bytes are no JSON object, is an error in every mode that makes it. */
  lemma CallFailures(api: Api, env: Env)
    requires ReachesVertex(api, env)
    requires env.mode == Strict || (env.mode != Unknown && !AskedStream(env.body.fields))
    ensures
      var bytes := env.callJSON(Forwarded(api, env.body.fields));
      && (bytes.Failed? ==> ExpectedAnswer(api, env) == Refusal(bytes.reason))
      && (bytes.Got? && env.decode(bytes.value) == None ==>
            ExpectedAnswer(api, env) == Refusal("vertex response decode error"))
  {
  }

  /**
   * Strict mode, for every response: blocked by the model's filter, it is refused with the filter's message; blocked by
   * the screening, with the screening's reason; otherwise its text is delivered as it was asked for.
   */
  lemma StrictExactly(api: Api, env: Env, response: Object)
    requires ReachesVertex(api, env) && env.mode == Strict && Responds(api, env, response)
    ensures HasBlockReason(response) ==>
      ExpectedAnswer(api, env) == Refusal("Model Armor: " + BlockReasonMessage(response))
    ensures
      var text := ExtractGeminiText(response);
      !HasBlockReason(response) && text != "" && env.screenResponse(text).Some? ==>
        ExpectedAnswer(api, env) == Refusal(env.screenResponse(text).value)
    ensures
      var body, text := env.body.fields, ExtractGeminiText(response);
      !HasBlockReason(response) && (text == "" || env.screenResponse(text) == None) ==>
        ExpectedAnswer(api, env) == Text(AskedStream(body), AskedModel(env, body), text)
  {
    RespondsResponse(api, env, response);
    BlockedExactly(response);
  }

  // ----- the live modes

  /** Fast and audit mode deliver whatever the model says, whole or streamed as it was asked for. */
  lemma LiveExactly(api: Api, env: Env)
    requires ReachesVertex(api, env) && (env.mode == Fast || env.mode == Audit)
    ensures !AskedStream(env.body.fields) ==> forall response :: Responds(api, env, response) ==>
      ExpectedAnswer(api, env) == Text(false, AskedModel(env, env.body.fields), ExtractGeminiText(response))
    ensures AskedStream(env.body.fields) ==>
      var called := env.callStream(Forwarded(api, env.body.fields));
      match called
      case Failed(reason) => ExpectedAnswer(api, env) == Refusal(reason)
      case Got(input) =>
        ExpectedAnswer(api, env)
        == Text(true, AskedModel(env, env.body.fields), Concat(AllDeltas(TranscriptOf(env.decode, input))))
  {
  }

  // ----- the policy

  /** How the policy engine's decision reaches the handler (internal/handler/handler.go). */
  ghost predicate DecidedBy(env: Env, evaluate: (string, bool) -> Policy.EvalResult) {
    forall model, stream ::
      var d := Policy.Decide(evaluate(model, stream));
      env.policy(model, stream) == if d.allowed then None else Some(d.reason)
  }

  /** The policy evaluated to an explicit false. */
  ghost predicate ExplicitFalse(r: Policy.EvalResult) {
    r.Result? && (r.value == Bool(false) || (r.value.Obj? && Get(r.value.fields, "allow") == Bool(false)))
  }

  lemma PolicyAnswers(api: Api, env: Env)
    requires ReachesPolicy(env)
    ensures ExpectedAnswer(api, env).Status? <==> PolicyVerdict(env).Some?
    ensures PolicyVerdict(env).Some? ==>
      ExpectedAnswer(api, env) == Status(HttpReply(403, PolicyVerdict(env).value)) && !ReachesVertex(api, env)
  {
  }

  /**
   * From the evaluation result to the client: a request that gets as far as the policy is answered with status 403
   * exactly when the policy evaluated to an explicit false, with its deny reason, and then Vertex AI is never called.
   */
  lemma ForbiddenExactly(api: Api, env: Env, evaluate: (string, bool) -> Policy.EvalResult, trace: seq<Effect>)
    requires Served(api, env, trace) && ReachesPolicy(env) && DecidedBy(env, evaluate)
    ensures
      var verdict := evaluate(AskedModel(env, env.body.fields), AskedStream(env.body.fields));
      if ExplicitFalse(verdict) then
        NoCall(trace) && ExpectedAnswer(api, env) == Status(HttpReply(403, Policy.Decide(verdict).reason))
      else !ExpectedAnswer(api, env).Status?
  {
    var verdict := evaluate(AskedModel(env, env.body.fields), AskedStream(env.body.fields));
    Policy.DeniedExactly(verdict);
    assert PolicyVerdict(env) == if ExplicitFalse(verdict) then Some(Policy.Decide(verdict).reason) else None;
    PolicyAnswers(api, env);
    CalledExactly(api, env, trace);
  }

  // ----- the log

  /** Which actions are handed to the webhook notifier. */
  predicate Reported(action: string) {
    "BLOCK" <= action || "DENY" <= action
  }

  ghost predicate DeniesRequest(env: Env) {
    ReachesPolicy(env) && PolicyVerdict(env).Some?
  }

  ghost predicate BlocksPrompt(api: Api, env: Env) {
    ReachesScreening(env) && env.screenPrompt(Prompt(api, env.body.fields)).Some?
  }

  ghost predicate ModelBlocks(api: Api, env: Env) {
    ReachesVertex(api, env) && env.mode == Strict && exists r :: Responds(api, env, r) && HasBlockReason(r)
  }

  ghost predicate BlocksText(env: Env, response: Object) {
    && !HasBlockReason(response) && ExtractGeminiText(response) != ""
    && env.screenResponse(ExtractGeminiText(response)).Some?
  }

  ghost predicate BlocksResponse(api: Api, env: Env) {
    ReachesVertex(api, env) && env.mode == Strict && exists r :: Responds(api, env, r) && BlocksText(env, r)
  }

  /** The audit finds fault with the text that was delivered. */
  ghost predicate BlocksAudit(api: Api, env: Env) {
    && ReachesVertex(api, env) && env.mode == Audit && ExpectedAnswer(api, env).Text?
    && ExpectedAnswer(api, env).text != "" && env.screenResponse(ExpectedAnswer(api, env).text).Some?
  }

  ghost predicate Delivers(api: Api, env: Env, mode: Mode) {
    ReachesVertex(api, env) && env.mode == mode && ExpectedAnswer(api, env).Text?
  }

  /** What happened to a request, as far as the log tells. */
  datatype Story = Story(
    denied: bool, promptBlocked: bool, modelBlocked: bool, responseBlocked: bool, auditBlocked: bool,
    strict: bool, fast: bool, audited: bool)

  ghost function StoryOf(api: Api, env: Env): Story {
    Story(DeniesRequest(env), BlocksPrompt(api, env), ModelBlocks(api, env), BlocksResponse(api, env),
          BlocksAudit(api, env), Delivers(api, env, Strict), Delivers(api, env, Fast), Delivers(api, env, Audit))
  }

  predicate Tells(story: Story, action: string) {
    || (action == "DENY_POLICY" && story.denied)
    || (action == "BLOCK_PROMPT" && story.promptBlocked)
    || (action == "MODEL_ARMOR_BLOCK" && story.modelBlocked)
    || (action == "BLOCK_RESPONSE" && story.responseBlocked)
    || (action == "BLOCK_RESPONSE_AUDIT" && story.auditBlocked)
    || (action == "ALLOW" && story.strict)
    || (action == "ALLOW_FAST" && story.fast)
    || (action == "ALLOW_AUDIT" && story.audited)
  }

  /** The four outcomes of strict mode. */
  lemma StrictStory(api: Api, env: Env)
    requires ReachesVertex(api, env) && env.mode == Strict
    ensures
      var story, response := StoryOf(api, env), Response(env, Forwarded(api, env.body.fields));
      && !story.denied && !story.promptBlocked && !story.auditBlocked && !story.fast && !story.audited
      && (story.modelBlocked <==> response.Got? && BlockedByModel(response.value))
      && (story.responseBlocked <==> response.Got? && BlocksText(env, response.value))
      && (story.strict <==> response.Got? && !BlockedByModel(response.value) && !BlocksText(env, response.value))
  {
    CallFailures(api, env);
    var response := Response(env, Forwarded(api, env.body.fields));
    if response.Got? {
      assert Responds(api, env, response.value);
      BlockedExactly(response.value);
      StrictExactly(api, env, response.value);
    }
  }

  lemma StrictLog(api: Api, env: Env, action: string)
    requires ReachesVertex(api, env) && env.mode == Strict
    ensures action in ExpectedActions(api, env) <==> Tells(StoryOf(api, env), action)
  {
    StrictStory(api, env);
    var response := Response(env, Forwarded(api, env.body.fields));
    if response.Got? { BlockedExactly(response.value); }
  }

  lemma LiveStory(api: Api, env: Env)
    requires ReachesVertex(api, env) && (env.mode == Fast || env.mode == Audit)
    ensures
      var story, answer := StoryOf(api, env), ExpectedAnswer(api, env);
      && !story.denied && !story.promptBlocked && !story.modelBlocked && !story.responseBlocked && !story.strict
      && (story.fast <==> env.mode == Fast && answer.Text?) && (story.audited <==> env.mode == Audit && answer.Text?)
      && (story.auditBlocked <==>
            env.mode == Audit && answer.Text? && answer.text != "" && env.screenResponse(answer.text).Some?)
  {
  }

  lemma LiveLog(api: Api, env: Env, action: string)
    requires ReachesVertex(api, env) && (env.mode == Fast || env.mode == Audit)
    ensures action in ExpectedActions(api, env) <==> Tells(StoryOf(api, env), action)
  {
    LiveStory(api, env);
  }

  lemma GateLog(api: Api, env: Env, action: string)
    requires !ReachesVertex(api, env)
    ensures action in ExpectedActions(api, env) <==> Tells(StoryOf(api, env), action)
  {
  }

  /** The log of a request says exactly what happened to it. */
  lemma LoggedExactly(api: Api, env: Env, trace: seq<Effect>, action: string)
    requires Served(api, env, trace)
    ensures Logged(action) in trace <==> Tells(StoryOf(api, env), action)
  {
    if !ReachesVertex(api, env) {
      GateLog(api, env, action);
    } else if env.mode == Strict {
      StrictLog(api, env, action);
    } else if env.mode != Unknown {
      LiveLog(api, env, action);
    }
  }

  lemma ReportedActions(story: Story, action: string)
    requires Tells(story, action)
    ensures Reported(action) ==> story.denied || story.promptBlocked || story.responseBlocked || story.auditBlocked
  {
    assert "BLOCK"[0] == 'B' && "DENY"[0] == 'D';
    assert "MODEL_ARMOR_BLOCK"[0] == 'M' && "ALLOW"[0] == "ALLOW_FAST"[0] == "ALLOW_AUDIT"[0] == 'A';
  }

  lemma StoryReported(story: Story)
    ensures (exists action :: Tells(story, action) && Reported(action)) <==>
      story.denied || story.promptBlocked || story.responseBlocked || story.auditBlocked
  {
    forall action | Tells(story, action) && Reported(action)
      ensures story.denied || story.promptBlocked || story.responseBlocked || story.auditBlocked
    {
      ReportedActions(story, action);
    }
    if story.denied { assert Tells(story, "DENY_POLICY") && Reported("DENY_POLICY"); }
    if story.promptBlocked { assert Tells(story, "BLOCK_PROMPT") && Reported("BLOCK_PROMPT"); }
    if story.responseBlocked { assert Tells(story, "BLOCK_RESPONSE") && Reported("BLOCK_RESPONSE"); }
    if story.auditBlocked { assert Tells(story, "BLOCK_RESPONSE_AUDIT") && Reported("BLOCK_RESPONSE_AUDIT"); }
  }

  /**
   * The notifier hears of a request exactly when the policy denies it or one of the proxy's own screenings blocks it.
   */
  lemma ReportedExactly(api: Api, env: Env, trace: seq<Effect>)
    requires Served(api, env, trace)
    ensures (exists action :: Logged(action) in trace && Reported(action)) <==>
      var story := StoryOf(api, env);
      story.denied || story.promptBlocked || story.responseBlocked || story.auditBlocked
  {
    var story := StoryOf(api, env);
    forall action ensures Logged(action) in trace <==> Tells(story, action) {
      LoggedExactly(api, env, trace, action);
    }
    StoryReported(story);
  }

  /** A response blocked by the model's own filter is logged, but never reported. */
  lemma ModelBlockUnreported(api: Api, env: Env, trace: seq<Effect>)
    requires Served(api, env, trace) && StoryOf(api, env).modelBlocked
    ensures Logged("MODEL_ARMOR_BLOCK") in trace
    ensures forall action :: Logged(action) in trace ==> !Reported(action)
  {
    var story := StoryOf(api, env);
    LoggedExactly(api, env, trace, "MODEL_ARMOR_BLOCK");
    OneResponse(api, env);
    forall action | Logged(action) in trace ensures !Reported(action) {
      LoggedExactly(api, env, trace, action);
      ReportedActions(story, action);
    }
  }

  /** There is one response, so the model's filter and the screening do not both block it. */
  lemma OneResponse(api: Api, env: Env)
    requires ModelBlocks(api, env)
    ensures !DeniesRequest(env) && !BlocksPrompt(api, env) && !BlocksResponse(api, env) && !BlocksAudit(api, env)
  {
  }
}
