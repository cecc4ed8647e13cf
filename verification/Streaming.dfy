/** The two stream translators and the two whole-message event writers (internal/streaming). */
module Streaming {
  import opened Sequences
  import opened Strings
  import opened Json
  import opened Framing
  import opened Translate

  datatype AnthropicEvent =
    | MessageStart(id: Value, model: Value, inputTokens: int)
    | BlockStart(index: nat)
    | BlockDelta(index: nat, text: string)
    | BlockStop(index: nat)
    | MessageDelta(stopReason: Value, outputTokens: int)
    | MessageStop

  /** A `chat.completion.chunk`, or the literal `[DONE]`. `role` and `content` say what its delta object holds. */
  datatype OpenAIEvent =
    | ChatChunk(id: Value, created: Value, model: Value, role: bool, content: Option<string>, finish: Value)
    | Done

  // ----- what a stream says, independently of either client format

  /** The nonempty text pieces of one model message, and the finish reason that ended it. */
  datatype Message = Message(deltas: seq<string>, finish: string)

  /** Finished messages, then the pieces of one still unfinished. */
  datatype Transcript = Transcript(complete: seq<Message>, open: seq<string>)

  function Extend(t: Transcript, c: Chunk): Transcript {
    var deltas := t.open + if c.text == "" then [] else [c.text];
    if c.finish == "" then t.(open := deltas) else Transcript(t.complete + [Message(deltas, c.finish)], [])
  }

  function Group(decode: Decoder, payloads: seq<string>): Transcript {
    if payloads == [] then Transcript([], [])
    else
      var n := |payloads| - 1;
      Extend(Group(decode, payloads[..n]), DecodeChunk(decode, payloads[n]))
  }

  function DeltasOf(messages: seq<Message>): seq<string> {
    if messages == [] then []
    else DeltasOf(messages[..|messages| - 1]) + messages[|messages| - 1].deltas
  }

  function AllDeltas(t: Transcript): seq<string> {
    DeltasOf(t.complete) + t.open
  }

  /** The lines seen in one read; a read of no bytes is not split at all. */
  function LinesOfRead(read: string): seq<string> {
    if read == "" then [] else Split(read)
  }

  function PayloadsOfRead(read: string): seq<string> {
    Payloads(LinesOfRead(read))
  }

  function TranscriptOf(decode: Decoder, input: seq<string>): Transcript {
    Group(decode, FlatMap(PayloadsOfRead, input))
  }

  // ----- the two output grammars

  /** The constants of one stream: message id, creation time (OpenAI only) and model name. */
  datatype Labels = Labels(id: string, created: int, model: string)

  function AnthropicOpening(l: Labels): seq<AnthropicEvent> {
    [MessageStart(Str(l.id), Str(l.model), 0), BlockStart(0)]
  }

  function AnthropicDeltas(texts: seq<string>): seq<AnthropicEvent> {
    seq(|texts|, i requires 0 <= i < |texts| => BlockDelta(0, texts[i]))
  }

  function AnthropicClosing(finish: string, tokens: nat): seq<AnthropicEvent> {
    [BlockStop(0), MessageDelta(Str(AnthropicStopReason(finish)), tokens), MessageStop]
  }

  /** Complete messages; `output_tokens` counts the deltas of the whole stream so far. */
  function AnthropicMessages(l: Labels, messages: seq<Message>): seq<AnthropicEvent> {
    if messages == [] then []
    else
      var m := messages[|messages| - 1];
      AnthropicMessages(l, messages[..|messages| - 1])
      + (AnthropicOpening(l) + AnthropicDeltas(m.deltas) + AnthropicClosing(m.finish, |DeltasOf(messages)|))
  }

  function AnthropicEvents(l: Labels, t: Transcript): seq<AnthropicEvent> {
    AnthropicMessages(l, t.complete) + if t.open == [] then [] else AnthropicOpening(l) + AnthropicDeltas(t.open)
  }

  function OpenAIChunk(l: Labels, role: bool, content: Option<string>, finish: Value): OpenAIEvent {
    ChatChunk(Str(l.id), Int(l.created), Str(l.model), role, content, finish)
  }

  function OpenAIOpening(l: Labels): seq<OpenAIEvent> {
    [OpenAIChunk(l, true, None, Null)]
  }

  function OpenAIDeltas(l: Labels, texts: seq<string>): seq<OpenAIEvent> {
    seq(|texts|, i requires 0 <= i < |texts| => OpenAIChunk(l, false, Some(texts[i]), Null))
  }

  function OpenAIClosing(l: Labels, finish: string): seq<OpenAIEvent> {
    [OpenAIChunk(l, false, None, Str(OpenAIFinishReason(finish))), Done]
  }

  function OpenAIMessages(l: Labels, messages: seq<Message>): seq<OpenAIEvent> {
    if messages == [] then []
    else
      var m := messages[|messages| - 1];
      OpenAIMessages(l, messages[..|messages| - 1])
      + (OpenAIOpening(l) + OpenAIDeltas(l, m.deltas) + OpenAIClosing(l, m.finish))
  }

  function OpenAIEvents(l: Labels, t: Transcript): seq<OpenAIEvent> {
    OpenAIMessages(l, t.complete) + if t.open == [] then [] else OpenAIOpening(l) + OpenAIDeltas(l, t.open)
  }

  // ----- one chunk's worth of output

  /** What a speaking chunk adds to the output, given what is already open and how many deltas there will then be. */
  function AnthropicAppend(l: Labels, open: bool, events: seq<AnthropicEvent>, c: Chunk,
                           tokens: nat): seq<AnthropicEvent> {
    var begun := if open then events else events + AnthropicOpening(l);
    var extended := if c.text == "" then begun else begun + [BlockDelta(0, c.text)];
    if c.finish == "" then extended else extended + AnthropicClosing(c.finish, tokens)
  }

  lemma AnthropicExtend(l: Labels, t: Transcript, c: Chunk)
    requires !c.Silent()
    ensures AnthropicEvents(l, Extend(t, c))
      == AnthropicAppend(l, t.open != [], AnthropicEvents(l, t), c, |AllDeltas(Extend(t, c))|)
  {
    var u, done := Extend(t, c), AnthropicMessages(l, t.complete);
    var deltas := t.open + if c.text == "" then [] else [c.text];
    var begun := if t.open != [] then AnthropicEvents(l, t) else AnthropicEvents(l, t) + AnthropicOpening(l);
    assert begun == done + (AnthropicOpening(l) + AnthropicDeltas(t.open));
    var extended := if c.text == "" then begun else begun + [BlockDelta(0, c.text)];
    assert extended == done + (AnthropicOpening(l) + AnthropicDeltas(deltas)) by {
      assert AnthropicDeltas(deltas) == AnthropicDeltas(t.open) + if c.text == "" then [] else [BlockDelta(0, c.text)];
    }
    if c.finish != "" {
      assert u.complete[..|u.complete| - 1] == t.complete;
      assert AllDeltas(u) == DeltasOf(u.complete);
      AnthropicClosed(l, u, extended, done, deltas, c.finish);
    }
  }

  lemma AnthropicClosed(l: Labels, u: Transcript, extended: seq<AnthropicEvent>, done: seq<AnthropicEvent>,
                        deltas: seq<string>, finish: string)
    requires u.complete != [] && u.open == [] && u.complete[|u.complete| - 1] == Message(deltas, finish)
    requires done == AnthropicMessages(l, u.complete[..|u.complete| - 1])
    requires extended == done + (AnthropicOpening(l) + AnthropicDeltas(deltas))
    ensures AnthropicEvents(l, u) == extended + AnthropicClosing(finish, |DeltasOf(u.complete)|)
  {
  }

  function OpenAIAppend(l: Labels, open: bool, events: seq<OpenAIEvent>, c: Chunk): seq<OpenAIEvent> {
    var begun := if open then events else events + OpenAIOpening(l);
    var extended := if c.text == "" then begun else begun + [OpenAIChunk(l, false, Some(c.text), Null)];
    if c.finish == "" then extended else extended + OpenAIClosing(l, c.finish)
  }

  lemma OpenAIExtend(l: Labels, t: Transcript, c: Chunk)
    requires !c.Silent()
    ensures OpenAIEvents(l, Extend(t, c)) == OpenAIAppend(l, t.open != [], OpenAIEvents(l, t), c)
  {
    var u, done := Extend(t, c), OpenAIMessages(l, t.complete);
    var deltas := t.open + if c.text == "" then [] else [c.text];
    var begun := if t.open != [] then OpenAIEvents(l, t) else OpenAIEvents(l, t) + OpenAIOpening(l);
    assert begun == done + (OpenAIOpening(l) + OpenAIDeltas(l, t.open));
    var extended := if c.text == "" then begun else begun + [OpenAIChunk(l, false, Some(c.text), Null)];
    assert extended == done + (OpenAIOpening(l) + OpenAIDeltas(l, deltas)) by {
      assert OpenAIDeltas(l, deltas)
        == OpenAIDeltas(l, t.open) + if c.text == "" then [] else [OpenAIChunk(l, false, Some(c.text), Null)];
    }
    if c.finish != "" {
      assert u.complete[..|u.complete| - 1] == t.complete;
      OpenAIClosed(l, u, extended, done, deltas, c.finish);
    }
  }

  lemma OpenAIClosed(l: Labels, u: Transcript, extended: seq<OpenAIEvent>, done: seq<OpenAIEvent>,
                     deltas: seq<string>, finish: string)
    requires u.complete != [] && u.open == [] && u.complete[|u.complete| - 1] == Message(deltas, finish)
    requires done == OpenAIMessages(l, u.complete[..|u.complete| - 1])
    requires extended == done + (OpenAIOpening(l) + OpenAIDeltas(l, deltas))
    ensures OpenAIEvents(l, u) == extended + OpenAIClosing(l, finish)
  {
  }

  lemma ExtendDeltas(t: Transcript, c: Chunk)
    ensures AllDeltas(Extend(t, c)) == AllDeltas(t) + if c.text == "" then [] else [c.text]
    ensures Concat(AllDeltas(Extend(t, c))) == Concat(AllDeltas(t)) + c.text
  {
    var u := Extend(t, c);
    if c.finish != "" {
      assert u.complete[..|u.complete| - 1] == t.complete;
    }
    ConcatAppend(AllDeltas(t), if c.text == "" then [] else [c.text]);
    assert Concat([c.text]) == c.text + "";
  }

  lemma GroupNext(decode: Decoder, payloads: seq<string>, line: string)
    ensures
      var t, c := Group(decode, payloads), ParseGeminiChunk(decode, line);
      Group(decode, payloads + LinePayload(line)) == if c.Silent() then t else Extend(t, c)
  {
    var all := payloads + LinePayload(line);
    match Payload(line)
    case None => assert all == payloads;
    case Some(p) =>
      assert all[..|all| - 1] == payloads;
      var t := Group(decode, payloads);
      assert t.open + [] == t.open;
  }

  /** The Anthropic translator's local variables after the transcript so far. */
  ghost predicate AnthropicState(l: Labels, t: Transcript, events: seq<AnthropicEvent>, accumulated: string,
                                 started: bool, totalTokens: int) {
    && events == AnthropicEvents(l, t) && accumulated == Concat(AllDeltas(t))
    && started == (t.open != []) && totalTokens == |AllDeltas(t)|
  }

  ghost predicate OpenAIState(l: Labels, t: Transcript, events: seq<OpenAIEvent>, accumulated: string, roleSent: bool) {
    events == OpenAIEvents(l, t) && accumulated == Concat(AllDeltas(t)) && roleSent == (t.open != [])
  }

  lemma AnthropicAdvance(l: Labels, t: Transcript, c: Chunk, events: seq<AnthropicEvent>, accumulated: string,
                         started: bool, totalTokens: int)
    requires AnthropicState(l, t, events, accumulated, started, totalTokens) && !c.Silent()
    ensures
      var tokens := totalTokens + if c.text == "" then 0 else 1;
      AnthropicState(l, Extend(t, c), AnthropicAppend(l, started, events, c, tokens),
                     accumulated + c.text, c.finish == "", tokens)
  {
    AnthropicExtend(l, t, c);
    ExtendDeltas(t, c);
  }

  lemma OpenAIAdvance(l: Labels, t: Transcript, c: Chunk, events: seq<OpenAIEvent>, accumulated: string, roleSent: bool)
    requires OpenAIState(l, t, events, accumulated, roleSent) && !c.Silent()
    ensures OpenAIState(l, Extend(t, c), OpenAIAppend(l, roleSent, events, c), accumulated + c.text, c.finish == "")
  {
    OpenAIExtend(l, t, c);
    ExtendDeltas(t, c);
  }

  /** The payloads of the first `i` reads and the first `j` lines of the next one. */
  ghost function SeenBy(input: seq<string>, i: nat, j: nat): seq<string>
    requires i < |input| && j <= |LinesOfRead(input[i])|
  {
    FlatMap(PayloadsOfRead, input[..i]) + FlatMap(LinePayload, LinesOfRead(input[i])[..j])
  }

  lemma SeenLine(input: seq<string>, i: nat, j: nat)
    requires i < |input| && j < |LinesOfRead(input[i])|
    ensures SeenBy(input, i, j + 1) == SeenBy(input, i, j) + LinePayload(LinesOfRead(input[i])[j])
  {
    FlatMapNext(LinePayload, LinesOfRead(input[i]), j);
  }

  lemma SeenRead(input: seq<string>, i: nat)
    requires i < |input|
    ensures SeenBy(input, i, 0) == FlatMap(PayloadsOfRead, input[..i])
    ensures SeenBy(input, i, |LinesOfRead(input[i])|) == FlatMap(PayloadsOfRead, input[..i + 1])
  {
    var lines := LinesOfRead(input[i]);
    assert lines[..|lines|] == lines;
    FlatMapNext(PayloadsOfRead, input, i);
  }

  // ----- the translators

  /** The loop body for one line: the local variables before and after it. */
  method AnthropicLine(decode: Decoder, l: Labels, line: string, ghost seen: seq<string>,
                       events0: seq<AnthropicEvent>, accumulated0: string, started0: bool, totalTokens0: int)
    returns (events: seq<AnthropicEvent>, accumulated: string, started: bool, totalTokens: int)
    requires AnthropicState(l, Group(decode, seen), events0, accumulated0, started0, totalTokens0)
    ensures AnthropicState(l, Group(decode, seen + LinePayload(line)), events, accumulated, started, totalTokens)
  {
    events, accumulated, started, totalTokens := events0, accumulated0, started0, totalTokens0;
    GroupNext(decode, seen, line);
    var chunk := ParseGeminiChunk(decode, line);
    if chunk.Silent() {
      return;
    }
    AnthropicAdvance(l, Group(decode, seen), chunk, events0, accumulated0, started0, totalTokens0);
    if !started {
      started := true;
      events := events + [MessageStart(Str(l.id), Str(l.model), 0), BlockStart(0)];
    }
    if chunk.text != "" {
      totalTokens := totalTokens + 1;
      accumulated := accumulated + chunk.text;
      events := events + [BlockDelta(0, chunk.text)];
    }
    if chunk.finish != "" {
      var stopReason := AnthropicStopReason(chunk.finish);
      events := events + [BlockStop(0), MessageDelta(Str(stopReason), totalTokens), MessageStop];
      started := false;
    }
    assert accumulated == accumulated0 + chunk.text;
  }

  method StreamGeminiAsAnthropic(decode: Decoder, input: seq<string>, l: Labels)
    returns (events: seq<AnthropicEvent>, accumulated: string)
    ensures events == AnthropicEvents(l, TranscriptOf(decode, input))
    ensures accumulated == Concat(AllDeltas(TranscriptOf(decode, input)))
  {
    events, accumulated := [], "";
    var started, totalTokens := false, 0;
    for i := 0 to |input|
      invariant AnthropicState(l, TranscriptOf(decode, input[..i]), events, accumulated, started, totalTokens)
    {
      SeenRead(input, i);
      var lines := LinesOfRead(input[i]);
      for j := 0 to |lines|
        invariant AnthropicState(l, Group(decode, SeenBy(input, i, j)), events, accumulated, started, totalTokens)
      {
        SeenLine(input, i, j);
        events, accumulated, started, totalTokens :=
          AnthropicLine(decode, l, lines[j], SeenBy(input, i, j), events, accumulated, started, totalTokens);
      }
    }
    assert input[..|input|] == input;
  }

  method OpenAILine(decode: Decoder, l: Labels, line: string, ghost seen: seq<string>,
                    events0: seq<OpenAIEvent>, accumulated0: string, roleSent0: bool)
    returns (events: seq<OpenAIEvent>, accumulated: string, roleSent: bool)
    requires OpenAIState(l, Group(decode, seen), events0, accumulated0, roleSent0)
    ensures OpenAIState(l, Group(decode, seen + LinePayload(line)), events, accumulated, roleSent)
  {
    events, accumulated, roleSent := events0, accumulated0, roleSent0;
    GroupNext(decode, seen, line);
    var chunk := ParseGeminiChunk(decode, line);
    if chunk.Silent() {
      return;
    }
    OpenAIAdvance(l, Group(decode, seen), chunk, events0, accumulated0, roleSent0);
    if !roleSent {
      roleSent := true;
      events := events + [OpenAIChunk(l, true, None, Null)];
    }
    if chunk.text != "" {
      accumulated := accumulated + chunk.text;
      events := events + [OpenAIChunk(l, false, Some(chunk.text), Null)];
    }
    if chunk.finish != "" {
      var finishReason := OpenAIFinishReason(chunk.finish);
      events := events + [OpenAIChunk(l, false, None, Str(finishReason)), Done];
      roleSent := false;
    }
    assert accumulated == accumulated0 + chunk.text;
  }

  method StreamGeminiAsOpenAI(decode: Decoder, input: seq<string>, l: Labels)
    returns (events: seq<OpenAIEvent>, accumulated: string)
    ensures events == OpenAIEvents(l, TranscriptOf(decode, input))
    ensures accumulated == Concat(AllDeltas(TranscriptOf(decode, input)))
  {
    events, accumulated := [], "";
    var roleSent := false;
    for i := 0 to |input|
      invariant OpenAIState(l, TranscriptOf(decode, input[..i]), events, accumulated, roleSent)
    {
      SeenRead(input, i);
      var lines := LinesOfRead(input[i]);
      for j := 0 to |lines|
        invariant OpenAIState(l, Group(decode, SeenBy(input, i, j)), events, accumulated, roleSent)
      {
        SeenLine(input, i, j);
        events, accumulated, roleSent :=
          OpenAILine(decode, l, lines[j], SeenBy(input, i, j), events, accumulated, roleSent);
      }
    }
    assert input[..|input|] == input;
  }

  // ----- whole messages written as events (strict mode)

  function BlockEvents(content: seq<Value>, n: nat): seq<AnthropicEvent>
    requires n <= |content|
  {
    if n == 0 then []
    else
      BlockEvents(content, n - 1)
      + [BlockStart(n - 1), BlockDelta(n - 1, StrVal(Get(AsObject(content[n - 1]), "text"), "")), BlockStop(n - 1)]
  }

  function AnthropicSSE(msg: Object): seq<AnthropicEvent> {
    var usage, content := AsObject(Get(msg, "usage")), AsArray(Get(msg, "content"));
    [MessageStart(Get(msg, "id"), Get(msg, "model"), IntVal(Get(usage, "input_tokens")))]
    + BlockEvents(content, |content|)
    + [MessageDelta(Get(msg, "stop_reason"), IntVal(Get(usage, "output_tokens"))), MessageStop]
  }

  method WriteAnthropicSSE(msg: Object) returns (events: seq<AnthropicEvent>)
    ensures events == AnthropicSSE(msg)
  {
    var usage, content := AsObject(Get(msg, "usage")), AsArray(Get(msg, "content"));
    events := [MessageStart(Get(msg, "id"), Get(msg, "model"), IntVal(Get(usage, "input_tokens")))];
    ghost var head := events;
    for i := 0 to |content|
      invariant events == head + BlockEvents(content, i)
    {
      var b := AsObject(content[i]);
      events := events + [BlockStart(i), BlockDelta(i, StrVal(Get(b, "text"), "")), BlockStop(i)];
    }
    events := events + [MessageDelta(Get(msg, "stop_reason"), IntVal(Get(usage, "output_tokens"))), MessageStop];
  }

  /** The source indexes `choices[0]` without a check, so a message without choices is the caller's error. */
  function OpenAISSE(msg: Object): seq<OpenAIEvent>
    requires AsArray(Get(msg, "choices")) != []
  {
    var choice := AsObject(AsArray(Get(msg, "choices"))[0]);
    var content := StrVal(Get(AsObject(Get(choice, "message")), "content"), "");
    [
      ChatChunk(Get(msg, "id"), Get(msg, "created"), Get(msg, "model"), true, Some(content), Null),
      ChatChunk(Get(msg, "id"), Get(msg, "created"), Get(msg, "model"), false, None, Get(choice, "finish_reason")),
      Done
    ]
  }
}
