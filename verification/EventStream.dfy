/**
 * The bytes of the emitted events, and an event-stream client after sections 9.2.5 and 9.2.6 of the
 * WHATWG HTML Standard.
 */
module EventStream {
  import opened Sequences
  import opened Strings
  import opened Json
  import opened Framing
  import opened Streaming
  import opened StreamTheorems

  // ----- the client

  /** Lines end at CR LF, LF or CR; an unfinished last line is not a line. `current` is the line read so far. */
  function Lines(s: string, current: string): seq<string>
    decreases |s|
  {
    if s == "" then []
    else if s[0] == '\r' then [current] + Lines(if |s| > 1 && s[1] == '\n' then s[2..] else s[1..], "")
    else if s[0] == '\n' then [current] + Lines(s[1..], "")
    else Lines(s[1..], current + [s[0]])
  }

  datatype Dispatched = Dispatched(event: string, data: string)

  /** The event type and data buffers, and the events dispatched so far. */
  datatype Client = Client(event: string, data: string, dispatched: seq<Dispatched>)

  function ColonIndex(line: string): nat
    ensures ColonIndex(line) <= |line|
  {
    if line == "" || line[0] == ':' then 0 else 1 + ColonIndex(line[1..])
  }

  function Field(c: Client, name: string, value: string): Client {
    if name == "event" then c.(event := value)
    else if name == "data" then c.(data := c.data + value + "\n")
    else c
  }

  function Dispatch(c: Client): Client {
    if c.data == "" then Client("", "", c.dispatched)
    else
      var event := Dispatched(if c.event == "" then "message" else c.event, TrimSuffix(c.data, '\n'));
      Client("", "", c.dispatched + [event])
  }

  /** A blank line dispatches, a line starting with a colon is a comment, anything else is a field. */
  function Interpret(c: Client, line: string): Client {
    if line == "" then Dispatch(c)
    else
      var colon := ColonIndex(line);
      if colon == 0 then c
      else if colon == |line| then Field(c, line, "")
      else
        var value := line[colon + 1..];
        Field(c, line[..colon], if value != "" && value[0] == ' ' then value[1..] else value)
  }

  function InterpretAll(c: Client, lines: seq<string>): Client
    decreases |lines|
  {
    if lines == [] then c else InterpretAll(Interpret(c, lines[0]), lines[1..])
  }

  function Receive(stream: string): seq<Dispatched> {
    InterpretAll(Client("", "", []), Lines(stream, "")).dispatched
  }

  // ----- the bytes written

  ghost predicate OneLine(s: string) {
    '\r' !in s && '\n' !in s
  }

  function AnthropicBytes(name: string, payload: string): string {
    "event: " + name + "\n" + "data: " + payload + "\r\n\r\n"
  }

  function OpenAIBytes(payload: string): string {
    "data: " + payload + "\n\n"
  }

  function EventName(e: AnthropicEvent): string {
    match e
    case MessageStart(_, _, _) => "message_start"
    case BlockStart(_) => "content_block_start"
    case BlockDelta(_, _) => "content_block_delta"
    case BlockStop(_) => "content_block_stop"
    case MessageDelta(_, _) => "message_delta"
    case MessageStop => "message_stop"
  }

  /** `encode` stands for `json.Marshal` of the event object. */
  function AnthropicStream(encode: AnthropicEvent -> string, events: seq<AnthropicEvent>): string {
    if events == [] then ""
    else AnthropicBytes(EventName(events[0]), encode(events[0])) + AnthropicStream(encode, events[1..])
  }

  function OpenAIPayload(encode: OpenAIEvent -> string, e: OpenAIEvent): string {
    if e.Done? then "[DONE]" else encode(e)
  }

  function OpenAIStream(encode: OpenAIEvent -> string, events: seq<OpenAIEvent>): string {
    if events == [] then ""
    else OpenAIBytes(OpenAIPayload(encode, events[0])) + OpenAIStream(encode, events[1..])
  }

  // ----- reading them back

  lemma {:induction false} LinesPlain(text: string, rest: string, current: string)
    requires OneLine(text)
    ensures Lines(text + rest, current) == Lines(rest, current + text)
    decreases |text|
  {
    if text == "" {
      assert text + rest == rest && current + text == current;
    } else {
      assert text[0] in text;
      assert (text + rest)[1..] == text[1..] + rest;
      LinesPlain(text[1..], rest, current + [text[0]]);
      assert current + [text[0]] + text[1..] == current + text;
    }
  }

  lemma LineFeed(text: string, rest: string)
    requires OneLine(text)
    ensures Lines(text + "\n" + rest, "") == [text] + Lines(rest, "")
  {
    LinesPlain(text, "\n" + rest, "");
    assert text + "\n" + rest == text + ("\n" + rest) && "" + text == text;
    assert ("\n" + rest)[1..] == rest;
  }

  lemma LineReturn(text: string, rest: string)
    requires OneLine(text)
    ensures Lines(text + "\r\n" + rest, "") == [text] + Lines(rest, "")
  {
    LinesPlain(text, "\r\n" + rest, "");
    assert text + "\r\n" + rest == text + ("\r\n" + rest) && "" + text == text;
    assert ("\r\n" + rest)[2..] == rest;
  }

  lemma AnthropicLines(name: string, payload: string, rest: string)
    requires OneLine(name) && OneLine(payload)
    ensures Lines(AnthropicBytes(name, payload) + rest, "")
      == ["event: " + name, "data: " + payload, ""] + Lines(rest, "")
  {
    var third := "" + "\r\n" + rest;
    var second := "data: " + payload + "\r\n" + third;
    assert AnthropicBytes(name, payload) + rest == "event: " + name + "\n" + second;
    LineFeed("event: " + name, second);
    LineReturn("data: " + payload, third);
    LineReturn("", rest);
  }

  lemma OpenAILines(payload: string, rest: string)
    requires OneLine(payload)
    ensures Lines(OpenAIBytes(payload) + rest, "") == ["data: " + payload, ""] + Lines(rest, "")
  {
    var second := "" + "\n" + rest;
    assert OpenAIBytes(payload) + rest == "data: " + payload + "\n" + second;
    LineFeed("data: " + payload, second);
    LineFeed("", rest);
  }

  lemma {:induction false} ColonAfter(name: string, rest: string)
    requires ':' !in name
    ensures ColonIndex(name + ":" + rest) == |name|
  {
    if name == "" {
      assert (name + ":" + rest)[0] == ':';
    } else {
      assert name[0] in name;
      assert (name + ":" + rest)[1..] == name[1..] + ":" + rest;
      ColonAfter(name[1..], rest);
    }
  }

  lemma FieldLine(c: Client, name: string, value: string)
    requires name != "" && ':' !in name
    ensures Interpret(c, name + ": " + value) == Field(c, name, value)
  {
    var line := name + ": " + value;
    assert line == name + ":" + (" " + value);
    ColonAfter(name, " " + value);
    assert line[..|name|] == name && line[|name| + 1..] == " " + value && (" " + value)[1..] == value;
  }

  /** The client between two events. */
  function Idle(dispatched: seq<Dispatched>): Client {
    Client("", "", dispatched)
  }

  lemma InterpretNext(c: Client, line: string, lines: seq<string>)
    ensures InterpretAll(c, [line] + lines) == InterpretAll(Interpret(c, line), lines)
  {
    assert ([line] + lines)[1..] == lines;
  }

  lemma DispatchLine(event: string, payload: string, seen: seq<Dispatched>)
    ensures Interpret(Client(event, "" + payload + "\n", seen), "")
      == Idle(seen + [Dispatched(if event == "" then "message" else event, payload)])
  {
    assert "" + payload + "\n" == payload + "\n";
    assert (payload + "\n")[..|payload|] == payload;
  }

  lemma AnthropicEventRead(seen: seq<Dispatched>, name: string, payload: string, lines: seq<string>)
    requires name != ""
    ensures InterpretAll(Idle(seen), ["event: " + name, "data: " + payload, ""] + lines)
      == InterpretAll(Idle(seen + [Dispatched(name, payload)]), lines)
  {
    assert "event" + ": " == "event: " && "data" + ": " == "data: ";
    FieldLine(Idle(seen), "event", name);
    DataEventRead(name, seen, payload, lines);
    InterpretNext(Idle(seen), "event: " + name, ["data: " + payload, ""] + lines);
    assert ["event: " + name, "data: " + payload, ""] + lines
      == ["event: " + name] + (["data: " + payload, ""] + lines);
  }

  /** A `data` line and a blank line, after at most an `event` line. */
  lemma DataEventRead(name: string, seen: seq<Dispatched>, payload: string, lines: seq<string>)
    ensures InterpretAll(Client(name, "", seen), ["data: " + payload, ""] + lines)
      == InterpretAll(Idle(seen + [Dispatched(if name == "" then "message" else name, payload)]), lines)
  {
    assert "data" + ": " == "data: ";
    FieldLine(Client(name, "", seen), "data", payload);
    DispatchLine(name, payload, seen);
    InterpretNext(Client(name, "", seen), "data: " + payload, [""] + lines);
    InterpretNext(Client(name, "" + payload + "\n", seen), "", lines);
    assert ["data: " + payload, ""] + lines == ["data: " + payload] + ([""] + lines);
  }

  function AnthropicSent(encode: AnthropicEvent -> string, events: seq<AnthropicEvent>): seq<Dispatched> {
    if events == [] then []
    else [Dispatched(EventName(events[0]), encode(events[0]))] + AnthropicSent(encode, events[1..])
  }

  function OpenAISent(encode: OpenAIEvent -> string, events: seq<OpenAIEvent>): seq<Dispatched> {
    if events == [] then []
    else [Dispatched("message", OpenAIPayload(encode, events[0]))] + OpenAISent(encode, events[1..])
  }

  lemma NameOneLine(e: AnthropicEvent)
    ensures EventName(e) != "" && OneLine(EventName(e))
  {
  }

  lemma AnthropicOneRead(seen: seq<Dispatched>, name: string, payload: string, rest: string)
    requires name != "" && OneLine(name) && OneLine(payload)
    ensures InterpretAll(Idle(seen), Lines(AnthropicBytes(name, payload) + rest, ""))
      == InterpretAll(Idle(seen + [Dispatched(name, payload)]), Lines(rest, ""))
  {
    AnthropicLines(name, payload, rest);
    AnthropicEventRead(seen, name, payload, Lines(rest, ""));
  }

  lemma Reassociate(seen: seq<Dispatched>, d: Dispatched, more: seq<Dispatched>)
    ensures seen + [d] + more == seen + ([d] + more)
  {
  }

  lemma {:induction false} AnthropicReceived(encode: AnthropicEvent -> string, events: seq<AnthropicEvent>,
                                             seen: seq<Dispatched>)
    requires forall e :: e in events ==> OneLine(encode(e))
    ensures InterpretAll(Idle(seen), Lines(AnthropicStream(encode, events), "")).dispatched
      == seen + AnthropicSent(encode, events)
    decreases |events|
  {
    if events != [] {
      var e, rest := events[0], AnthropicStream(encode, events[1..]);
      var d := Dispatched(EventName(e), encode(e));
      NameOneLine(e);
      AnthropicOneRead(seen, EventName(e), encode(e), rest);
      AnthropicReceived(encode, events[1..], seen + [d]);
      Reassociate(seen, d, AnthropicSent(encode, events[1..]));
    }
  }

  lemma {:induction false} OpenAIReceived(encode: OpenAIEvent -> string, events: seq<OpenAIEvent>,
                                          seen: seq<Dispatched>)
    requires forall e :: e in events ==> OneLine(encode(e))
    ensures InterpretAll(Idle(seen), Lines(OpenAIStream(encode, events), "")).dispatched
      == seen + OpenAISent(encode, events)
    decreases |events|
  {
    if events != [] {
      var payload, rest := OpenAIPayload(encode, events[0]), OpenAIStream(encode, events[1..]);
      var d := Dispatched("message", payload);
      OpenAILines(payload, rest);
      DataEventRead("", seen, payload, Lines(rest, ""));
      OpenAIReceived(encode, events[1..], seen + [d]);
      Reassociate(seen, d, OpenAISent(encode, events[1..]));
    }
  }

  /** Rendering round trip: a standard client dispatches exactly the events written, names and payloads, in order. */
  lemma AnthropicRoundTrip(encode: AnthropicEvent -> string, events: seq<AnthropicEvent>)
    requires forall e :: e in events ==> OneLine(encode(e))
    ensures Receive(AnthropicStream(encode, events)) == AnthropicSent(encode, events)
  {
    AnthropicReceived(encode, events, []);
  }

  lemma OpenAIRoundTrip(encode: OpenAIEvent -> string, events: seq<OpenAIEvent>)
    requires forall e :: e in events ==> OneLine(encode(e))
    ensures Receive(OpenAIStream(encode, events)) == OpenAISent(encode, events)
  {
    OpenAIReceived(encode, events, []);
  }

  // ----- the names of the events

  /** The documented order of Anthropic event names, as an automaton over what a client receives. */
  function NamePhase(p: Phase, name: string): Phase {
    match p
    case Outside => if name == "message_start" then Begun else Violated
    case Begun => if name == "content_block_start" then InBlock(0) else Violated
    case InBlock(n) =>
      if name == "content_block_delta" then InBlock(n + 1)
      else if name == "content_block_stop" then BlockEnded
      else Violated
    case BlockEnded => if name == "message_delta" then Closing else Violated
    case Closing => if name == "message_stop" then Outside else Violated
    case Violated => Violated
  }

  function NameRun(p: Phase, received: seq<Dispatched>): Phase
    decreases |received|
  {
    if received == [] then p else NameRun(NamePhase(p, received[0].event), received[1..])
  }

  lemma NameFollows(p: Phase, e: AnthropicEvent)
    requires AnthropicPhase(p, e) != Violated
    ensures NamePhase(p, EventName(e)) == AnthropicPhase(p, e)
  {
  }

  lemma {:induction false} ViolatedStays(events: seq<AnthropicEvent>)
    ensures AnthropicRun(Violated, events) == Violated
    decreases |events|
  {
    if events != [] { ViolatedStays(events[1..]); }
  }

  lemma {:induction false} NamesFollow(p: Phase, encode: AnthropicEvent -> string, events: seq<AnthropicEvent>)
    requires AnthropicRun(p, events) != Violated
    ensures NameRun(p, AnthropicSent(encode, events)) == AnthropicRun(p, events)
    decreases |events|
  {
    if events != [] {
      if AnthropicPhase(p, events[0]) == Violated {
        ViolatedStays(events[1..]);
      } else {
        NameFollows(p, events[0]);
        NamesFollow(AnthropicPhase(p, events[0]), encode, events[1..]);
        assert AnthropicSent(encode, events)[1..] == AnthropicSent(encode, events[1..]);
      }
    }
  }

  /** On any input, the names a client receives are in the documented order and stop only where the events do. */
  lemma NamesInOrder(decode: Decoder, input: seq<string>, l: Labels, encode: AnthropicEvent -> string)
    requires forall e :: e in AnthropicEvents(l, TranscriptOf(decode, input)) ==> OneLine(encode(e))
    ensures
      var t := TranscriptOf(decode, input);
      NameRun(Outside, Receive(AnthropicStream(encode, AnthropicEvents(l, t))))
      == if t.open == [] then Outside else InBlock(|t.open|)
  {
    var events := AnthropicEvents(l, TranscriptOf(decode, input));
    AnthropicProtocol(decode, input, l);
    AnthropicRoundTrip(encode, events);
    NamesFollow(Outside, encode, events);
  }

  // ----- end to end

  /** The text a client assembles: the decoded text deltas, joined. */
  function ClientText(parse: string -> AnthropicEvent, received: seq<Dispatched>): string {
    if received == [] then "" else Concat(AnthropicText(parse(received[0].data))) + ClientText(parse, received[1..])
  }

  lemma {:induction false} ClientReads(encode: AnthropicEvent -> string, parse: string -> AnthropicEvent,
                                       events: seq<AnthropicEvent>)
    requires forall e :: e in events ==> parse(encode(e)) == e
    ensures ClientText(parse, AnthropicSent(encode, events)) == Concat(FlatMap(AnthropicText, events))
    decreases |events|
  {
    if events != [] {
      ClientReads(encode, parse, events[1..]);
      assert events[0] in events && forall e :: e in events[1..] ==> e in events;
      assert AnthropicSent(encode, events)[1..] == AnthropicSent(encode, events[1..]);
      ConcatAppend(AnthropicText(events[0]), FlatMap(AnthropicText, events[1..]));
    }
  }

  /**
   * From Vertex bytes to client text and audit: for every input stream, the text a client assembles from the bytes
   * written is the text the translator returns for auditing.
   */
  lemma ClientSeesWhatIsAudited(decode: Decoder, input: seq<string>, l: Labels,
                                encode: AnthropicEvent -> string, parse: string -> AnthropicEvent)
    requires forall e :: e in AnthropicEvents(l, TranscriptOf(decode, input)) ==>
      OneLine(encode(e)) && parse(encode(e)) == e
    ensures
      var t := TranscriptOf(decode, input);
      ClientText(parse, Receive(AnthropicStream(encode, AnthropicEvents(l, t)))) == Concat(AllDeltas(t))
  {
    var t := TranscriptOf(decode, input);
    var events := AnthropicEvents(l, t);
    AnthropicRoundTrip(encode, events);
    ClientReads(encode, parse, events);
    AnthropicDelivers(l, t);
  }

  function OpenAIClientText(parse: string -> OpenAIEvent, received: seq<Dispatched>): string {
    if received == [] then "" else Concat(OpenAIText(parse(received[0].data))) + OpenAIClientText(parse, received[1..])
  }

  lemma {:induction false} OpenAIClientReads(encode: OpenAIEvent -> string, parse: string -> OpenAIEvent,
                                             events: seq<OpenAIEvent>)
    requires forall e :: e in events ==> parse(OpenAIPayload(encode, e)) == e
    ensures OpenAIClientText(parse, OpenAISent(encode, events)) == Concat(FlatMap(OpenAIText, events))
    decreases |events|
  {
    if events != [] {
      OpenAIClientReads(encode, parse, events[1..]);
      assert parse(OpenAIPayload(encode, events[0])) == events[0];
      assert OpenAISent(encode, events)[1..] == OpenAISent(encode, events[1..]);
      ConcatAppend(OpenAIText(events[0]), FlatMap(OpenAIText, events[1..]));
    }
  }

  lemma OpenAIClientSeesWhatIsAudited(decode: Decoder, input: seq<string>, l: Labels,
                                      encode: OpenAIEvent -> string, parse: string -> OpenAIEvent)
    requires forall e :: e in OpenAIEvents(l, TranscriptOf(decode, input)) ==>
      OneLine(encode(e)) && parse(OpenAIPayload(encode, e)) == e
    ensures
      var t := TranscriptOf(decode, input);
      OpenAIClientText(parse, Receive(OpenAIStream(encode, OpenAIEvents(l, t)))) == Concat(AllDeltas(t))
  {
    var t := TranscriptOf(decode, input);
    OpenAIRoundTrip(encode, OpenAIEvents(l, t));
    OpenAIClientReads(encode, parse, OpenAIEvents(l, t));
    OpenAIDelivers(l, t);
  }
}
