/** What the events say: texts, finish reasons and labels, traced back to the Vertex AI objects they come from. */
module StreamContents {
  import opened Sequences
  import opened Strings
  import opened Json
  import opened Framing
  import opened Translate
  import opened Streaming
  import opened StreamTheorems

  // ----- a Gemini response and what is read from it

  /** A response as the API documents it: the first part of the first candidate speaks, whatever else there is. */
  function GeminiResponse(text: string, finish: Value, parts: seq<Value>, candidates: seq<Value>): Object {
    var content := Obj(map["role" := Str("model"), "parts" := Arr([Obj(map["text" := Str(text)])] + parts)]);
    map["candidates" := Arr([Obj(map["content" := content, "finishReason" := finish])] + candidates)]
  }

  lemma ResponseRead(text: string, finish: Value, parts: seq<Value>, candidates: seq<Value>)
    ensures
      var response := GeminiResponse(text, finish, parts, candidates);
      && ChunkOf(response) == Chunk(text, if finish.Str? then finish.s else "")
      && ExtractGeminiText(response) == text
  {
  }

  /** Without a candidate there is nothing to read. */
  lemma NothingRead(response: Object)
    requires !Get(response, "candidates").Arr? || Get(response, "candidates").items == []
    ensures ChunkOf(response) == Chunk("", "") && ExtractGeminiText(response) == ""
  {
  }

  // ----- the transcript

  /** The nonempty texts of the input, in order. */
  function TextsRead(decode: Decoder, payloads: seq<string>): seq<string> {
    if payloads == [] then []
    else
      var text := DecodeChunk(decode, payloads[|payloads| - 1]).text;
      TextsRead(decode, payloads[..|payloads| - 1]) + if text == "" then [] else [text]
  }

  /** Its finish reasons, in order. */
  function FinishesRead(decode: Decoder, payloads: seq<string>): seq<string> {
    if payloads == [] then []
    else
      var finish := DecodeChunk(decode, payloads[|payloads| - 1]).finish;
      FinishesRead(decode, payloads[..|payloads| - 1]) + if finish == "" then [] else [finish]
  }

  function Finishes(messages: seq<Message>): seq<string> {
    seq(|messages|, i requires 0 <= i < |messages| => messages[i].finish)
  }

  lemma ExtendFinishes(t: Transcript, c: Chunk)
    ensures Finishes(Extend(t, c).complete) == Finishes(t.complete) + if c.finish == "" then [] else [c.finish]
  {
  }

  /** A transcript keeps every nonempty text and every finish reason of the input, in order, and nothing else. */
  lemma {:induction false} TranscriptFaithful(decode: Decoder, payloads: seq<string>)
    ensures AllDeltas(Group(decode, payloads)) == TextsRead(decode, payloads)
    ensures Finishes(Group(decode, payloads).complete) == FinishesRead(decode, payloads)
  {
    if payloads != [] {
      var earlier, c := payloads[..|payloads| - 1], DecodeChunk(decode, payloads[|payloads| - 1]);
      TranscriptFaithful(decode, earlier);
      GroupLast(decode, payloads, c);
      ExtendDeltas(Group(decode, earlier), c);
      ExtendFinishes(Group(decode, earlier), c);
    }
  }

  // ----- finish reasons

  function AnthropicReason(e: AnthropicEvent): seq<Value> {
    if e.MessageDelta? then [e.stopReason] else []
  }

  function OpenAIReason(e: OpenAIEvent): seq<Value> {
    if e.ChatChunk? && e.finish != Null then [e.finish] else []
  }

  /** The three cases both formats tell apart. */
  ghost predicate Corresponds(finish: string, anthropic: Value, openai: Value) {
    && (finish == "MAX_TOKENS" ==> anthropic == Str("max_tokens") && openai == Str("length"))
    && (finish == "SAFETY" ==> anthropic == Str("stop_sequence") && openai == Str("content_filter"))
    && (finish != "MAX_TOKENS" && finish != "SAFETY" ==> anthropic == Str("end_turn") && openai == Str("stop"))
  }

  lemma {:induction false} AnthropicReasonsSilent(texts: seq<string>)
    ensures FlatMap(AnthropicReason, AnthropicDeltas(texts)) == []
  {
    if texts != [] {
      assert AnthropicDeltas(texts)[1..] == AnthropicDeltas(texts[1..]);
      AnthropicReasonsSilent(texts[1..]);
    }
  }

  lemma {:induction false} OpenAIReasonsSilent(l: Labels, texts: seq<string>)
    ensures FlatMap(OpenAIReason, OpenAIDeltas(l, texts)) == []
  {
    if texts != [] {
      assert OpenAIDeltas(l, texts)[1..] == OpenAIDeltas(l, texts[1..]);
      OpenAIReasonsSilent(l, texts[1..]);
    }
  }

  lemma AnthropicOpenReasons(l: Labels, texts: seq<string>)
    ensures FlatMap(AnthropicReason, AnthropicOpening(l) + AnthropicDeltas(texts)) == []
  {
    var opening := AnthropicOpening(l);
    assert opening == [opening[0]] + [opening[1]];
    FlatMapAppend(AnthropicReason, [opening[0]], [opening[1]]);
    FlatMapOne(AnthropicReason, opening[0]);
    FlatMapOne(AnthropicReason, opening[1]);
    AnthropicReasonsSilent(texts);
    FlatMapAppend(AnthropicReason, opening, AnthropicDeltas(texts));
  }

  lemma OpenAIOpenReasons(l: Labels, texts: seq<string>)
    ensures FlatMap(OpenAIReason, OpenAIOpening(l) + OpenAIDeltas(l, texts)) == []
  {
    FlatMapOne(OpenAIReason, OpenAIOpening(l)[0]);
    OpenAIReasonsSilent(l, texts);
    FlatMapAppend(OpenAIReason, OpenAIOpening(l), OpenAIDeltas(l, texts));
  }

  lemma AnthropicClosingReason(finish: string, tokens: nat)
    ensures FlatMap(AnthropicReason, AnthropicClosing(finish, tokens)) == [Str(AnthropicStopReason(finish))]
  {
    var c := AnthropicClosing(finish, tokens);
    assert c == [c[0]] + ([c[1]] + [c[2]]);
    FlatMapAppend(AnthropicReason, [c[0]], [c[1]] + [c[2]]);
    FlatMapAppend(AnthropicReason, [c[1]], [c[2]]);
    FlatMapOne(AnthropicReason, c[0]);
    FlatMapOne(AnthropicReason, c[1]);
    FlatMapOne(AnthropicReason, c[2]);
  }

  lemma OpenAIClosingReason(l: Labels, finish: string)
    ensures FlatMap(OpenAIReason, OpenAIClosing(l, finish)) == [Str(OpenAIFinishReason(finish))]
  {
    var c := OpenAIClosing(l, finish);
    assert c == [c[0]] + [c[1]];
    FlatMapAppend(OpenAIReason, [c[0]], [c[1]]);
    FlatMapOne(OpenAIReason, c[0]);
    FlatMapOne(OpenAIReason, c[1]);
  }

  function StopReasons(messages: seq<Message>): seq<Value> {
    seq(|messages|, i requires 0 <= i < |messages| => Str(AnthropicStopReason(messages[i].finish)))
  }

  function FinishReasons(messages: seq<Message>): seq<Value> {
    seq(|messages|, i requires 0 <= i < |messages| => Str(OpenAIFinishReason(messages[i].finish)))
  }

  lemma LastReasons(messages: seq<Message>)
    requires messages != []
    ensures
      var n := |messages| - 1;
      && StopReasons(messages) == StopReasons(messages[..n]) + [Str(AnthropicStopReason(messages[n].finish))]
      && FinishReasons(messages) == FinishReasons(messages[..n]) + [Str(OpenAIFinishReason(messages[n].finish))]
  {
  }

  lemma {:induction false} AnthropicMessageReasons(l: Labels, messages: seq<Message>)
    ensures FlatMap(AnthropicReason, AnthropicMessages(l, messages)) == StopReasons(messages)
  {
    if messages != [] {
      var n := |messages| - 1;
      var m := messages[n];
      var head := AnthropicOpening(l) + AnthropicDeltas(m.deltas);
      var tail := AnthropicClosing(m.finish, |DeltasOf(messages)|);
      AnthropicMessageReasons(l, messages[..n]);
      AnthropicOpenReasons(l, m.deltas);
      AnthropicClosingReason(m.finish, |DeltasOf(messages)|);
      FlatMapAppend(AnthropicReason, head, tail);
      FlatMapAppend(AnthropicReason, AnthropicMessages(l, messages[..n]), head + tail);
      LastReasons(messages);
    }
  }

  lemma {:induction false} OpenAIMessageReasons(l: Labels, messages: seq<Message>)
    ensures FlatMap(OpenAIReason, OpenAIMessages(l, messages)) == FinishReasons(messages)
  {
    if messages != [] {
      var n := |messages| - 1;
      var m := messages[n];
      var head := OpenAIOpening(l) + OpenAIDeltas(l, m.deltas);
      var tail := OpenAIClosing(l, m.finish);
      OpenAIMessageReasons(l, messages[..n]);
      OpenAIOpenReasons(l, m.deltas);
      OpenAIClosingReason(l, m.finish);
      FlatMapAppend(OpenAIReason, head, tail);
      FlatMapAppend(OpenAIReason, OpenAIMessages(l, messages[..n]), head + tail);
      LastReasons(messages);
    }
  }

  lemma AnthropicReasons(l: Labels, t: Transcript)
    ensures FlatMap(AnthropicReason, AnthropicEvents(l, t)) == StopReasons(t.complete)
  {
    var last := if t.open == [] then [] else AnthropicOpening(l) + AnthropicDeltas(t.open);
    AnthropicMessageReasons(l, t.complete);
    AnthropicOpenReasons(l, t.open);
    FlatMapAppend(AnthropicReason, AnthropicMessages(l, t.complete), last);
  }

  lemma OpenAIReasons(l: Labels, t: Transcript)
    ensures FlatMap(OpenAIReason, OpenAIEvents(l, t)) == FinishReasons(t.complete)
  {
    var last := if t.open == [] then [] else OpenAIOpening(l) + OpenAIDeltas(l, t.open);
    OpenAIMessageReasons(l, t.complete);
    OpenAIOpenReasons(l, t.open);
    FlatMapAppend(OpenAIReason, OpenAIMessages(l, t.complete), last);
  }

  /**
   * On any input, the two outputs report as many finish reasons as the input holds, and the k-th of each is the one
   * that belongs to the k-th of the input.
   */
  lemma ReasonsInStep(decode: Decoder, input: seq<string>, l: Labels, l': Labels)
    ensures
      var t, finishes := TranscriptOf(decode, input), FinishesRead(decode, FlatMap(PayloadsOfRead, input));
      var a, o := FlatMap(AnthropicReason, AnthropicEvents(l, t)), FlatMap(OpenAIReason, OpenAIEvents(l', t));
      |a| == |o| == |finishes| && forall k :: 0 <= k < |finishes| ==> Corresponds(finishes[k], a[k], o[k])
  {
    TranscriptFaithful(decode, FlatMap(PayloadsOfRead, input));
    var t := TranscriptOf(decode, input);
    AnthropicReasons(l, t);
    OpenAIReasons(l', t);
    var finishes := Finishes(t.complete);
    var a, o := StopReasons(t.complete), FinishReasons(t.complete);
    forall k | 0 <= k < |finishes| ensures Corresponds(finishes[k], a[k], o[k]) {
      SameReason(finishes[k]);
    }
  }

  lemma SameReason(finish: string)
    ensures Corresponds(finish, Str(AnthropicStopReason(finish)), Str(OpenAIFinishReason(finish)))
  {
  }

  /** Whole translated messages use the same words. */
  lemma WholeReasons(response: Object, model: string, id: string, created: int)
    ensures
      var anthropic := TranslateGeminiToAnthropic(response, model, id);
      var choices := AsArray(Get(TranslateGeminiToOpenAI(response, model, id, created), "choices"));
      |choices| == 1 &&
      Corresponds(ChunkOf(response).finish, Get(anthropic, "stop_reason"), Get(AsObject(choices[0]), "finish_reason"))
  {
    SameText(response);
  }

  // ----- labels

  ghost predicate AnthropicLabelled(l: Labels, events: seq<AnthropicEvent>) {
    forall e :: e in events && e.MessageStart? ==> e == MessageStart(Str(l.id), Str(l.model), 0)
  }

  ghost predicate OpenAILabelled(l: Labels, events: seq<OpenAIEvent>) {
    forall e :: e in events && e.ChatChunk? ==>
      e.id == Str(l.id) && e.created == Int(l.created) && e.model == Str(l.model)
  }

  lemma {:induction false} AnthropicMessageLabels(l: Labels, messages: seq<Message>)
    ensures AnthropicLabelled(l, AnthropicMessages(l, messages))
  {
    if messages != [] { AnthropicMessageLabels(l, messages[..|messages| - 1]); }
  }

  lemma {:induction false} OpenAIMessageLabels(l: Labels, messages: seq<Message>)
    ensures OpenAILabelled(l, OpenAIMessages(l, messages))
  {
    if messages != [] { OpenAIMessageLabels(l, messages[..|messages| - 1]); }
  }

  /** Every message of a stream carries the stream's id, model and time. */
  lemma StreamLabelled(l: Labels, t: Transcript)
    ensures AnthropicLabelled(l, AnthropicEvents(l, t)) && OpenAILabelled(l, OpenAIEvents(l, t))
  {
    AnthropicMessageLabels(l, t.complete);
    OpenAIMessageLabels(l, t.complete);
  }

  // ----- whole messages

  /** Where the events of the blocks of a whole message stand, and what they carry. */
  lemma {:induction false} BlockAt(content: seq<Value>, n: nat, i: nat)
    requires i < n <= |content|
    ensures |BlockEvents(content, n)| == 3 * n
    ensures BlockEvents(content, n)[3 * i..3 * i + 3]
      == [BlockStart(i), BlockDelta(i, StrVal(Get(AsObject(content[i]), "text"), "")), BlockStop(i)]
  {
    if i < n - 1 {
      BlockAt(content, n - 1, i);
    } else if n > 1 {
      BlockAt(content, n - 1, 0);
    }
  }

  /** A strict-mode OpenAI stream: one chunk with role and text, one with the finish reason, [DONE]. */
  lemma OpenAIStrictEvents(response: Object, model: string, id: string, created: int)
    ensures
      var msg, l := TranslateGeminiToOpenAI(response, model, id, created), Labels(id, created, model);
      OpenAISSE(msg) == [
        OpenAIChunk(l, true, Some(ExtractGeminiText(response)), Null),
        OpenAIChunk(l, false, None, Str(OpenAIFinishReason(ChunkOf(response).finish))),
        Done
      ]
  {
    SameText(response);
  }

  /** The fixed parts of whole messages. */
  lemma WholeShapes(response: Object, model: string, id: string, created: int)
    ensures
      var msg := TranslateGeminiToAnthropic(response, model, id);
      && Get(msg, "id") == Str(id) && Get(msg, "type") == Str("message") && Get(msg, "role") == Str("assistant")
      && Get(msg, "stop_sequence") == Null
      && Get(msg, "content") == Arr([Obj(map["type" := Str("text"), "text" := Str(ChunkOf(response).text)])])
    ensures
      var msg := TranslateGeminiToOpenAI(response, model, id, created);
      var choice := AsObject(First(AsArray(Get(msg, "choices"))));
      && Get(msg, "id") == Str(id) && Get(msg, "object") == Str("chat.completion")
      && Get(msg, "created") == Int(created)
      && Get(choice, "index") == Int(0)
      && Get(choice, "message") == Obj(map["role" := Str("assistant"), "content" := Str(ChunkOf(response).text)])
  {
    SameText(response);
  }

  /** Both formats report the same counts, truncated from those of Vertex AI. */
  lemma UsageInStep(response: Object, model: string, id: string, created: int)
    ensures
      var anthropic := AsObject(Get(TranslateGeminiToAnthropic(response, model, id), "usage"));
      var openai := AsObject(Get(TranslateGeminiToOpenAI(response, model, id, created), "usage"));
      var counted := AsObject(Get(response, "usageMetadata"));
      && Get(anthropic, "input_tokens") == Get(openai, "prompt_tokens") == Int(IntVal(Get(counted, "promptTokenCount")))
      && Get(anthropic, "output_tokens") == Get(openai, "completion_tokens")
        == Int(IntVal(Get(counted, "candidatesTokenCount")))
      && Get(openai, "total_tokens") == Int(IntVal(Get(counted, "totalTokenCount")))
  {
  }

  lemma Truncation(n: real)
    ensures n >= 0.0 ==> IntVal(Num(n)) as real <= n < IntVal(Num(n)) as real + 1.0
    ensures n < 0.0 ==> IntVal(Num(n)) as real - 1.0 < n <= IntVal(Num(n)) as real
  {
  }
}
