/** The handler's screenings done by the inspector chain: which requests and responses pass. */
module Screening {
  import opened Strings
  import opened Json
  import opened Translate
  import opened Handler
  import opened Answers
  import FanOut

  /** What the chain returns to the handler: the reason of its result, if any. */
  function Reason(v: FanOut.Verdict): Option<string> {
    if v == None then None else Some(v.value.reason)
  }

  /** The outcome of some complete run of the chain whose inspectors give these verdicts. */
  ghost predicate Screened(verdicts: seq<FanOut.Verdict>, outcome: Option<string>) {
    exists actions :: ScreenedBy(verdicts, outcome, actions)
  }

  ghost predicate ScreenedBy(verdicts: seq<FanOut.Verdict>, outcome: Option<string>, actions: seq<FanOut.Action>) {
    && FanOut.Runs(verdicts, FanOut.Initial(|verdicts|), actions)
    && var end := FanOut.After(verdicts, FanOut.Initial(|verdicts|), actions);
       end.finished && outcome == Reason(end.result)
  }

  /** Some inspector blocks; an error alone does not. */
  ghost predicate Blocked(verdicts: seq<FanOut.Verdict>) {
    exists i :: 0 <= i < |verdicts| && verdicts[i].Some? && verdicts[i].value.blocked
  }

  ghost predicate BlockedFor(verdicts: seq<FanOut.Verdict>, reason: string) {
    exists i :: 0 <= i < |verdicts| && verdicts[i].Some? && verdicts[i].value.blocked
      && verdicts[i].value.reason == reason
  }

  lemma ScreenedExactly(verdicts: seq<FanOut.Verdict>, outcome: Option<string>)
    requires Screened(verdicts, outcome)
    ensures outcome.Some? <==> Blocked(verdicts)
    ensures outcome.Some? ==> BlockedFor(verdicts, outcome.value)
  {
    var actions :| ScreenedBy(verdicts, outcome, actions);
    FanOut.FanOutResult(verdicts, actions);
    var end := FanOut.After(verdicts, FanOut.Initial(|verdicts|), actions);
    if end.result != None {
      var results := FanOut.Results(verdicts, end.received);
      var k :| FanOut.FirstBlockAt(results, end.result, k);
      assert results[k] == verdicts[end.received[k]];
    }
  }

  /**
   * A request that reaches the screening gets to Vertex AI exactly when no inspector blocks its prompt, in whatever
   * order the inspectors finish, and the mode is known; if one blocks, the client is refused with the reason of one
   * that does.
   */
  lemma PromptPassesExactly(api: Api, env: Env, verdicts: seq<FanOut.Verdict>, trace: seq<Effect>)
    requires Served(api, env, trace) && ReachesScreening(env)
    requires Screened(verdicts, env.screenPrompt(Prompt(api, env.body.fields)))
    ensures NoCall(trace) <==> Blocked(verdicts) || env.mode == Unknown
    ensures Blocked(verdicts) ==> exists reason :: BlockedFor(verdicts, reason) && Answered(api, trace, Refusal(reason))
  {
    var outcome := env.screenPrompt(Prompt(api, env.body.fields));
    ScreenedExactly(verdicts, outcome);
    if outcome.Some? {
      assert ExpectedAnswer(api, env) == Refusal(outcome.value);
    }
  }

  /**
   * In strict mode, the answer to a decoded response that the model's own filter lets pass is its text exactly when no
   * inspector blocks that text; otherwise it is a refusal, with the reason of one that blocks.
   */
  lemma ResponsePassesExactly(api: Api, env: Env, response: Object, verdicts: seq<FanOut.Verdict>)
    requires ReachesVertex(api, env) && env.mode == Strict
    requires Responds(api, env, response) && !HasBlockReason(response)
    requires ExtractGeminiText(response) != "" && Screened(verdicts, env.screenResponse(ExtractGeminiText(response)))
    ensures
      var body := env.body.fields;
      !Blocked(verdicts) <==>
        ExpectedAnswer(api, env) == Text(AskedStream(body), AskedModel(env, body), ExtractGeminiText(response))
    ensures Blocked(verdicts) ==>
      exists reason :: BlockedFor(verdicts, reason) && ExpectedAnswer(api, env) == Refusal(reason)
  {
    ScreenedExactly(verdicts, env.screenResponse(ExtractGeminiText(response)));
    StrictExactly(api, env, response);
  }
}
