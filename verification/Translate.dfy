/** Prompt extraction and request/response translation (internal/translate). */
module Translate {
  import opened Sequences
  import opened Strings
  import opened Json

  // ----- specification functions

  /** A content block's text: a bare string, or a `text` block. */
  function BlockText(block: Value): seq<string> {
    match block
    case Str(s) => [s]
    case Obj(fields) => if Get(fields, "type") == Str("text") then [StrVal(Get(fields, "text"), "")] else []
    case _ => []
  }

  function MessageText(msg: Object): string {
    match Get(msg, "content")
    case Str(s) => s
    case Arr(blocks) => Join(FlatMap(BlockText, blocks), " ")
    case _ => ""
  }

  function TextOfMessage(msg: Value): seq<string> {
    if msg.Obj? then [MessageText(msg.fields)] else []
  }

  function TextOfPart(part: Value): seq<string> {
    var text := Get(AsObject(part), "text");
    if text.Str? then [text.s] else []
  }

  function TextsOfContent(content: Value): seq<string> {
    FlatMap(TextOfPart, AsArray(Get(AsObject(content), "parts")))
  }

  function PromptOf(msgs: seq<Value>): string {
    Join(FlatMap(TextOfMessage, msgs), " ")
  }

  function AnthropicPrompt(body: Object): string {
    PromptOf(AsArray(Get(body, "messages")))
  }

  function OpenAIPrompt(body: Object): string {
    if Get(body, "messages").Arr? then AnthropicPrompt(body)
    else Join(FlatMap(TextsOfContent, AsArray(Get(body, "contents"))), " ")
  }

  /** One entry of the Gemini `contents` array; every one the proxy builds has a single text part. */
  datatype Turn = Turn(role: string, text: string)

  datatype GeminiRequest = GeminiRequest(contents: seq<Turn>, generationConfig: Object)

  /** A message becomes one turn, except that non-objects and empty texts are dropped. */
  function TurnOf(msg: Value): seq<Turn> {
    if !msg.Obj? || MessageText(msg.fields) == "" then []
    else [Turn(if Get(msg.fields, "role") == Str("assistant") then "model" else "user", MessageText(msg.fields))]
  }

  function SystemTurns(system: string): seq<Turn> {
    if system == "" then [] else [Turn("user", system), Turn("model", "Understood.")]
  }

  /** The stop sequences forwarded: `stop`, as it is or as a list of one, before `stop_sequences`. */
  function StopValue(body: Object): Value {
    var stop, sequences := Get(body, "stop"), Get(body, "stop_sequences");
    if stop.Arr? then stop else if stop.Str? then Arr([stop]) else if sequences.Arr? then sequences else Null
  }

  function WithNumber(config: Object, body: Object, field: string, key: string): Object {
    if Get(body, field).Num? then config[key := Get(body, field)] else config
  }

  function Numbers(body: Object): Object {
    var limits := WithNumber(map[], body, "max_tokens", "maxOutputTokens");
    var heated := WithNumber(limits, body, "temperature", "temperature");
    var nucleus := WithNumber(WithNumber(heated, body, "top_p", "topP"), body, "top_k", "topK");
    var frequency := WithNumber(nucleus, body, "frequency_penalty", "frequencyPenalty");
    WithNumber(frequency, body, "presence_penalty", "presencePenalty")
  }

  function GenerationConfig(body: Object): Object {
    if StopValue(body) == Null then Numbers(body) else Numbers(body)["stopSequences" := StopValue(body)]
  }

  /** A string found anywhere in a decoded value, the keys of objects included. */
  ghost predicate Mentions(v: Value, s: string) {
    match v
    case Str(t) => t == s
    case Arr(items) => exists i :: 0 <= i < |items| && Mentions(items[i], s)
    case Obj(fields) => exists k :: k in fields && (k == s || Mentions(fields[k], s))
    case _ => false
  }

  function TurnTexts(turns: seq<Turn>): seq<string> {
    if turns == [] then [] else [turns[0].text] + TurnTexts(turns[1..])
  }

  // ----- the loops

  method ExtractMessageText(msg: Object) returns (text: string)
    ensures text == MessageText(msg)
  {
    var content := Get(msg, "content");
    if content.Str? {
      return content.s;
    }
    if !content.Arr? {
      return "";
    }
    var parts: seq<string>, blocks := [], content.items;
    for i := 0 to |blocks|
      invariant parts == FlatMap(BlockText, blocks[..i])
    {
      FlatMapNext(BlockText, blocks, i);
      var block := blocks[i];
      if block.Str? {
        parts := parts + [block.s];
      } else if block.Obj? && Get(block.fields, "type") == Str("text") {
        parts := parts + [StrVal(Get(block.fields, "text"), "")];
      }
    }
    assert blocks[..|blocks|] == blocks;
    text := Join(parts, " ");
  }

  method ExtractAnthropicPrompt(body: Object) returns (prompt: string)
    ensures prompt == AnthropicPrompt(body)
  {
    if !Get(body, "messages").Arr? {
      return "";
    }
    var msgs := Get(body, "messages").items;
    var parts: seq<string> := [];
    for i := 0 to |msgs|
      invariant parts == FlatMap(TextOfMessage, msgs[..i])
    {
      FlatMapNext(TextOfMessage, msgs, i);
      if msgs[i].Obj? {
        var text := ExtractMessageText(msgs[i].fields);
        parts := parts + [text];
      }
    }
    assert msgs[..|msgs|] == msgs;
    prompt := Join(parts, " ");
  }

  /** The inner loop: the text parts of one Gemini content. */
  method ContentTexts(content: Value) returns (texts: seq<string>)
    ensures texts == TextsOfContent(content)
  {
    texts := [];
    var parts := AsArray(Get(AsObject(content), "parts"));
    for j := 0 to |parts|
      invariant texts == FlatMap(TextOfPart, parts[..j])
    {
      FlatMapNext(TextOfPart, parts, j);
      var text := Get(AsObject(parts[j]), "text");
      if text.Str? {
        texts := texts + [text.s];
      }
    }
    assert parts[..|parts|] == parts;
  }

  method ExtractOpenAIPrompt(body: Object) returns (prompt: string)
    ensures prompt == OpenAIPrompt(body)
  {
    if Get(body, "messages").Arr? {
      prompt := ExtractAnthropicPrompt(body);
      return;
    }
    if !Get(body, "contents").Arr? {
      return "";
    }
    var contents := Get(body, "contents").items;
    var parts: seq<string> := [];
    for i := 0 to |contents|
      invariant parts == FlatMap(TextsOfContent, contents[..i])
    {
      FlatMapNext(TextsOfContent, contents, i);
      var texts := ContentTexts(contents[i]);
      parts := parts + texts;
    }
    assert contents[..|contents|] == contents;
    prompt := Join(parts, " ");
  }

  method TranslateToGemini(body: Object, system: string, config: Object) returns (request: GeminiRequest)
    ensures request == GeminiRequest(SystemTurns(system) + FlatMap(TurnOf, AsArray(Get(body, "messages"))), config)
  {
    var contents: seq<Turn> := [];
    if system != "" {
      contents := contents + [Turn("user", system), Turn("model", "Understood.")];
    }
    var msgs := AsArray(Get(body, "messages"));
    for i := 0 to |msgs|
      invariant contents == SystemTurns(system) + FlatMap(TurnOf, msgs[..i])
    {
      FlatMapNext(TurnOf, msgs, i);
      if msgs[i].Obj? {
        var msg := msgs[i].fields;
        var role := if Get(msg, "role") == Str("assistant") then "model" else "user";
        var text := ExtractMessageText(msg);
        if text != "" {
          contents := contents + [Turn(role, text)];
        }
      }
    }
    assert msgs[..|msgs|] == msgs;
    request := GeminiRequest(contents, config);
  }

  method ExtractGenerationConfig(body: Object) returns (config: Object)
    ensures config == GenerationConfig(body)
  {
    config := WithNumber(map[], body, "max_tokens", "maxOutputTokens");
    config := WithNumber(config, body, "temperature", "temperature");
    config := WithNumber(config, body, "top_p", "topP");
    config := WithNumber(config, body, "top_k", "topK");
    config := WithNumber(config, body, "frequency_penalty", "frequencyPenalty");
    config := WithNumber(config, body, "presence_penalty", "presencePenalty");
    ghost var numbers := config;
    if Get(body, "stop_sequences").Arr? {
      config := config["stopSequences" := Get(body, "stop_sequences")];
    }
    if Get(body, "stop").Str? {
      config := config["stopSequences" := Arr([Get(body, "stop")])];
    }
    if Get(body, "stop").Arr? {
      config := config["stopSequences" := Get(body, "stop")];
    }
    assert numbers == Numbers(body);
  }

  ghost predicate OnlyNumbers(config: Object) {
    forall key :: key in config ==> config[key].Num?
  }

  lemma NumbersOnly(body: Object)
    ensures OnlyNumbers(Numbers(body))
  {
  }

  /** Of the configuration, only the stop sequences carry text, whatever else the body holds. */
  lemma ConfigMentions(body: Object, s: string)
    ensures (exists key :: key in GenerationConfig(body) && Mentions(GenerationConfig(body)[key], s))
      <==> Mentions(StopValue(body), s)
  {
    NumbersOnly(body);
    if Mentions(StopValue(body), s) {
      assert "stopSequences" in GenerationConfig(body);
    }
  }

  // ----- responses

  function ExtractGeminiText(response: Object): string {
    var candidates := AsArray(Get(response, "candidates"));
    if candidates == [] then ""
    else
      var parts := AsArray(Get(AsObject(Get(AsObject(candidates[0]), "content")), "parts"));
      if parts == [] then "" else StrVal(Get(AsObject(parts[0]), "text"), "")
  }

  function FinishReason(response: Object): string {
    StrVal(Get(AsObject(First(AsArray(Get(response, "candidates")))), "finishReason"), "")
  }

  function AnthropicStopReason(finish: string): string {
    if finish == "MAX_TOKENS" then "max_tokens" else if finish == "SAFETY" then "stop_sequence" else "end_turn"
  }

  function OpenAIFinishReason(finish: string): string {
    if finish == "MAX_TOKENS" then "length" else if finish == "SAFETY" then "content_filter" else "stop"
  }

  function Usage(response: Object, field: string): Value {
    Int(IntVal(Get(AsObject(Get(response, "usageMetadata")), field)))
  }

  function TranslateGeminiToAnthropic(response: Object, model: string, id: string): Object {
    map[
      "id" := Str(id), "type" := Str("message"), "role" := Str("assistant"), "model" := Str(model),
      "content" := Arr([Obj(map["type" := Str("text"), "text" := Str(ExtractGeminiText(response))])]),
      "stop_reason" := Str(AnthropicStopReason(FinishReason(response))), "stop_sequence" := Null,
      "usage" := Obj(map[
        "input_tokens" := Usage(response, "promptTokenCount"),
        "output_tokens" := Usage(response, "candidatesTokenCount")])
    ]
  }

  function TranslateGeminiToOpenAI(response: Object, model: string, id: string, created: int): Object {
    map[
      "id" := Str(id), "object" := Str("chat.completion"), "created" := Int(created), "model" := Str(model),
      "choices" := Arr([Obj(map[
        "index" := Int(0),
        "message" := Obj(map["role" := Str("assistant"), "content" := Str(ExtractGeminiText(response))]),
        "finish_reason" := Str(OpenAIFinishReason(FinishReason(response)))])]),
      "usage" := Obj(map[
        "prompt_tokens" := Usage(response, "promptTokenCount"),
        "completion_tokens" := Usage(response, "candidatesTokenCount"),
        "total_tokens" := Usage(response, "totalTokenCount")])
    ]
  }

  // ----- what is forwarded was part of the prompt

  /** `kept` is `all` with some messages left out. */
  ghost predicate Subsequence(kept: seq<Value>, all: seq<Value>) {
    if all == [] then kept == []
    else Subsequence(kept, all[1..]) || (kept != [] && kept[0] == all[0] && Subsequence(kept[1..], all[1..]))
  }

  lemma {:induction false} SubsequenceRefl(msgs: seq<Value>)
    ensures Subsequence(msgs, msgs)
  {
    if msgs != [] { SubsequenceRefl(msgs[1..]); }
  }

  /** The texts of the turns made from any part of a conversation occur, in order, in the prompt of the whole. */
  lemma {:induction false} TurnsEmbedded(kept: seq<Value>, all: seq<Value>)
    requires Subsequence(kept, all)
    ensures Embedded(TurnTexts(FlatMap(TurnOf, kept)), PromptOf(all))
  {
    if all != [] {
      if Subsequence(kept, all[1..]) {
        TurnsEmbedded(kept, all[1..]);
        PromptGrows(TurnTexts(FlatMap(TurnOf, kept)), all, false);
      } else {
        var later := TurnTexts(FlatMap(TurnOf, kept[1..]));
        TurnsEmbedded(kept[1..], all[1..]);
        var turn := TurnOf(kept[0]);
        PromptGrows(later, all, turn != []);
        assert turn != [] ==> (turn + FlatMap(TurnOf, kept[1..]))[1..] == FlatMap(TurnOf, kept[1..]);
        assert turn == [] ==> turn + FlatMap(TurnOf, kept[1..]) == FlatMap(TurnOf, kept[1..]);
      }
    }
  }

  /** One more message in front of a conversation leaves room for its own text before those already placed. */
  lemma PromptGrows(later: seq<string>, all: seq<Value>, take: bool)
    requires all != [] && Embedded(later, PromptOf(all[1..]))
    requires take ==> all[0].Obj?
    ensures Embedded(if take then [MessageText(all[0].fields)] + later else later, PromptOf(all))
  {
    var rest := FlatMap(TextOfMessage, all[1..]);
    if all[0].Obj? {
      var text := MessageText(all[0].fields);
      var sep := if rest == [] then "" else " ";
      EmbeddedShift(later, sep, Join(rest, " "));
      assert ([text] + rest)[1..] == rest;
      assert Join([text] + rest, " ") == text + (sep + Join(rest, " "));
      if take {
        EmbeddedCons(text, later, sep + Join(rest, " "));
      } else {
        EmbeddedShift(later, text, sep + Join(rest, " "));
      }
    } else {
      assert [] + rest == rest;
    }
  }

  lemma {:induction false} TextListed(msgs: seq<Value>, k: nat)
    requires k < |msgs| && msgs[k].Obj?
    ensures MessageText(msgs[k].fields) in FlatMap(TextOfMessage, msgs)
  {
    if k > 0 { TextListed(msgs[1..], k - 1); }
  }

  /** Every message's text is part of the prompt. */
  lemma MessageInPrompt(msgs: seq<Value>, k: nat)
    requires k < |msgs| && msgs[k].Obj?
    ensures Substring(MessageText(msgs[k].fields), PromptOf(msgs))
  {
    TextListed(msgs, k);
    var texts := FlatMap(TextOfMessage, msgs);
    var i :| 0 <= i < |texts| && texts[i] == MessageText(msgs[k].fields);
    JoinEmbeds(texts, " ");
    EmbeddedEach(texts, Join(texts, " "), i);
  }
}
