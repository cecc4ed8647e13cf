/** What a request body says, and what of it is screened and forwarded. */
module Conversation {
  import opened Sequences
  import opened Strings
  import opened Json
  import opened Translate
  import opened Handler

  // ----- the text of a message

  /** A block that speaks: a bare string, or an object of type text, whose missing text counts as empty. */
  ghost predicate Speaks(block: Value, text: string) {
    || block == Str(text)
    || (block.Obj? && Get(block.fields, "type") == Str("text")
        && if Get(block.fields, "text").Str? then Get(block.fields, "text") == Str(text) else text == "")
  }

  /** Any other block: images, tool calls, numbers. */
  ghost predicate Mute(block: Value) {
    !block.Str? && (block.Obj? ==> Get(block.fields, "type") != Str("text"))
  }

  /** The speaking blocks say these texts, in this order. */
  ghost predicate Says(blocks: seq<Value>, texts: seq<string>) {
    if blocks == [] then texts == []
    else if Mute(blocks[0]) then Says(blocks[1..], texts)
    else texts != [] && Speaks(blocks[0], texts[0]) && Says(blocks[1..], texts[1..])
  }

  lemma {:induction false} BlocksSay(blocks: seq<Value>, texts: seq<string>)
    requires Says(blocks, texts)
    ensures FlatMap(BlockText, blocks) == texts
  {
    if blocks != [] {
      if Mute(blocks[0]) {
        BlocksSay(blocks[1..], texts);
        assert BlockText(blocks[0]) == [];
      } else {
        BlocksSay(blocks[1..], texts[1..]);
        assert BlockText(blocks[0]) == [texts[0]] && texts == [texts[0]] + texts[1..];
      }
    }
  }

  /** A message's text is its string, or what its blocks say, separated by spaces; nothing for any other content. */
  lemma MessageTextExactly(msg: Object, texts: seq<string>)
    requires Get(msg, "content").Arr? ==> Says(Get(msg, "content").items, texts)
    ensures MessageText(msg) ==
      if Get(msg, "content").Str? then Get(msg, "content").s
      else if Get(msg, "content").Arr? then Join(texts, " ")
      else ""
  {
    if Get(msg, "content").Arr? { BlocksSay(Get(msg, "content").items, texts); }
  }

  // ----- the screened prompt

  /** The texts of the messages that are objects, in order, empty ones and system ones included. */
  function AllTexts(msgs: seq<Value>): seq<string> {
    if msgs == [] then []
    else if msgs[0].Obj? then [MessageText(msgs[0].fields)] + AllTexts(msgs[1..])
    else AllTexts(msgs[1..])
  }

  lemma {:induction false} PromptTexts(msgs: seq<Value>)
    ensures FlatMap(TextOfMessage, msgs) == AllTexts(msgs)
  {
    if msgs != [] {
      PromptTexts(msgs[1..]);
      assert [] + AllTexts(msgs[1..]) == AllTexts(msgs[1..]);
    }
  }

  /** On both endpoints the prompt screened is all messages' texts, separated by spaces. */
  lemma PromptExactly(api: Api, body: Object)
    requires Get(body, "messages").Arr?
    ensures Prompt(api, body) == Join(AllTexts(Get(body, "messages").items), " ")
  {
    PromptTexts(Get(body, "messages").items);
  }

  lemma {:induction false} FlatMapHolds<A, B>(f: A -> seq<B>, xs: seq<A>, i: nat, y: B)
    requires i < |xs| && y in f(xs[i])
    ensures y in FlatMap(f, xs)
  {
    if i > 0 { FlatMapHolds(f, xs[1..], i - 1, y); }
  }

  /** A body without messages but with Gemini contents: every text part is screened. */
  lemma ContentsScreened(body: Object, i: nat, j: nat)
    requires !Get(body, "messages").Arr? && Get(body, "contents").Arr?
    requires i < |Get(body, "contents").items|
    requires
      var content := Get(body, "contents").items[i];
      content.Obj? && Get(content.fields, "parts").Arr? && j < |Get(content.fields, "parts").items|
    requires
      var part := Get(Get(body, "contents").items[i].fields, "parts").items[j];
      part.Obj? && Get(part.fields, "text").Str?
    ensures
      var part := Get(Get(body, "contents").items[i].fields, "parts").items[j];
      Substring(Get(part.fields, "text").s, Prompt(OpenAIApi, body))
  {
    var contents := Get(body, "contents").items;
    var parts := Get(contents[i].fields, "parts").items;
    var text := Get(parts[j].fields, "text").s;
    assert TextOfPart(parts[j]) == [text];
    FlatMapHolds(TextOfPart, parts, j, text);
    FlatMapHolds(TextsOfContent, contents, i, text);
    var texts := FlatMap(TextsOfContent, contents);
    var k :| 0 <= k < |texts| && texts[k] == text;
    JoinEmbeds(texts, " ");
    EmbeddedEach(texts, Join(texts, " "), k);
  }

  // ----- the turns forwarded

  /** A message that takes part in the conversation forwarded. */
  ghost predicate TakesPart(api: Api, m: Value) {
    m.Obj? && MessageText(m.fields) != "" && (api == OpenAIApi ==> Get(m.fields, "role") != Str("system"))
  }

  ghost predicate TurnFor(m: Object, turn: Turn) {
    && turn.text == MessageText(m)
    && turn.role == if Get(m, "role") == Str("assistant") then "model" else "user"
  }

  /** The turns are those of the messages that take part, one to one and in order. */
  ghost predicate Rendered(api: Api, msgs: seq<Value>, turns: seq<Turn>) {
    if msgs == [] then turns == []
    else if TakesPart(api, msgs[0]) then
      turns != [] && TurnFor(msgs[0].fields, turns[0]) && Rendered(api, msgs[1..], turns[1..])
    else Rendered(api, msgs[1..], turns)
  }

  lemma {:induction false} TurnsRendered(msgs: seq<Value>)
    ensures Rendered(AnthropicApi, msgs, FlatMap(TurnOf, msgs))
  {
    if msgs != [] {
      TurnsRendered(msgs[1..]);
      var rest := FlatMap(TurnOf, msgs[1..]);
      if TakesPart(AnthropicApi, msgs[0]) {
        assert (TurnOf(msgs[0]) + rest)[1..] == rest;
      } else {
        assert TurnOf(msgs[0]) + rest == rest;
      }
    }
  }

  lemma {:induction false} NonSystemRendered(msgs: seq<Value>)
    ensures Rendered(OpenAIApi, msgs, FlatMap(TurnOf, FlatMap(KeepNonSystem, msgs)))
  {
    if msgs != [] {
      NonSystemRendered(msgs[1..]);
      var kept := FlatMap(KeepNonSystem, msgs[1..]);
      var rest := FlatMap(TurnOf, kept);
      FlatMapAppend(TurnOf, KeepNonSystem(msgs[0]), kept);
      if KeepNonSystem(msgs[0]) != [] { FlatMapOne(TurnOf, msgs[0]); }
      if TakesPart(OpenAIApi, msgs[0]) {
        assert (TurnOf(msgs[0]) + rest)[1..] == rest;
      } else {
        assert FlatMap(TurnOf, KeepNonSystem(msgs[0])) == [] && [] + rest == rest;
      }
    }
  }

  /** The role of `system` messages, for the request as a whole. */
  ghost predicate SystemMessage(m: Value) {
    m.Obj? && Get(m.fields, "role") == Str("system")
  }

  /** The last system message of an OpenAI body decides, even when its content is no string. */
  ghost predicate LastSystem(msgs: seq<Value>, k: nat) {
    k < |msgs| && SystemMessage(msgs[k]) && forall j :: k < j < |msgs| ==> !SystemMessage(msgs[j])
  }

  lemma {:induction false} SystemTextExactly(msgs: seq<Value>, k: nat)
    requires LastSystem(msgs, k) || (k == |msgs| && forall j :: 0 <= j < |msgs| ==> !SystemMessage(msgs[j]))
    ensures SystemText(msgs) ==
      if k < |msgs| && Get(msgs[k].fields, "content").Str? then Get(msgs[k].fields, "content").s else ""
    decreases |msgs|
  {
    if msgs != [] && k != |msgs| - 1 {
      var n := |msgs| - 1;
      assert !SystemMessage(msgs[n]);
      SystemTextExactly(msgs[..n], if k < n then k else n);
    }
  }

  /** The request begins with this system text and its acknowledgement, if there is one, and goes on with the turns. */
  ghost predicate Begins(contents: seq<Turn>, system: string, turns: seq<Turn>) {
    contents == (if system == "" then [] else [Turn("user", system), Turn("model", "Understood.")]) + turns
  }

  /** Anthropic: the body's own system text, then every message with text, one turn each, in order. */
  lemma AnthropicForwarded(body: Object)
    ensures
      var system := if Get(body, "system").Str? then Get(body, "system").s else "";
      exists turns :: Rendered(AnthropicApi, AsArray(Get(body, "messages")), turns)
        && Begins(Forwarded(AnthropicApi, body).contents, system, turns)
  {
    var msgs := AsArray(Get(body, "messages"));
    TurnsRendered(msgs);
    assert Begins(Forwarded(AnthropicApi, body).contents, System(AnthropicApi, body), FlatMap(TurnOf, msgs));
  }

  /** OpenAI: the text of the last system message, then every other message with text, one turn each, in order. */
  lemma OpenAIForwarded(body: Object, k: nat)
    requires
      var msgs := AsArray(Get(body, "messages"));
      LastSystem(msgs, k) || (k == |msgs| && forall j :: 0 <= j < |msgs| ==> !SystemMessage(msgs[j]))
    ensures
      var msgs := AsArray(Get(body, "messages"));
      var system :=
        if k < |msgs| && Get(msgs[k].fields, "content").Str? then Get(msgs[k].fields, "content").s else "";
      exists turns :: Rendered(OpenAIApi, msgs, turns)
        && Begins(Forwarded(OpenAIApi, body).contents, system, turns)
  {
    var msgs := AsArray(Get(body, "messages"));
    NonSystemRendered(msgs);
    SystemTextExactly(msgs, k);
    assert Begins(Forwarded(OpenAIApi, body).contents, SystemText(msgs), FlatMap(TurnOf, FlatMap(KeepNonSystem, msgs)));
  }

  // ----- the generation parameters

  /** A number of the body under its own name, and under Gemini's. */
  ghost predicate Carries(body: Object, config: Object, field: string, key: string) {
    if Get(body, field).Num? then key in config && config[key] == Get(body, field) else key !in config
  }

  /** Every number arrives under its Gemini name, exactly when the body holds one. */
  lemma NumbersForwarded(body: Object)
    ensures Carries(body, Numbers(body), "max_tokens", "maxOutputTokens")
    ensures Carries(body, Numbers(body), "temperature", "temperature")
    ensures Carries(body, Numbers(body), "top_p", "topP")
    ensures Carries(body, Numbers(body), "top_k", "topK")
    ensures Carries(body, Numbers(body), "frequency_penalty", "frequencyPenalty")
    ensures Carries(body, Numbers(body), "presence_penalty", "presencePenalty")
    ensures "stopSequences" !in Numbers(body)
  {
  }

  /** The stop sequences forwarded: a list under `stop`, or a single string there, or a list under `stop_sequences`. */
  lemma StopsForwarded(body: Object)
    ensures
      var config, stop, list := GenerationConfig(body), Get(body, "stop"), Get(body, "stop_sequences");
      && ("stopSequences" in config <==> stop.Arr? || stop.Str? || list.Arr?)
      && (stop.Arr? ==> config["stopSequences"] == stop)
      && (stop.Str? ==> config["stopSequences"] == Arr([stop]))
      && (!stop.Arr? && !stop.Str? && list.Arr? ==> config["stopSequences"] == list)
      && forall key :: key != "stopSequences" ==>
        (key in config <==> key in Numbers(body)) && (key in config ==> config[key] == Numbers(body)[key])
  {
    NumbersForwarded(body);
  }
}
