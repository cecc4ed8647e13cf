/** What holds of the stream translators on every input. */
module StreamTheorems {
  import opened Sequences
  import opened Strings
  import opened Json
  import opened Framing
  import opened Translate
  import opened Streaming

  // ----- the grouping of the input into reads

  /** Every read but the last is empty or ends at a newline. */
  ghost predicate Aligned(input: seq<string>) {
    forall i :: 0 <= i < |input| - 1 ==> input[i] == "" || input[i][|input[i]| - 1] == '\n'
  }

  lemma BlankLineSilent()
    ensures Payloads([""]) == []
  {
    assert LinePayload("") == [];
  }

  lemma LineThen(line: string, later: string)
    ensures Payloads(Split(line + "\n" + later)) == Payloads(Split(line)) + Payloads(Split(later))
  {
    SplitAtNewline(line, later);
    FlatMapAppend(LinePayload, Split(line), Split(later));
  }

  lemma NewlineRead(line: string)
    ensures PayloadsOfRead(line + "\n") == Payloads(Split(line))
  {
    BlankLineSilent();
    LineThen(line, "");
    assert line + "\n" + "" == line + "\n";
  }

  lemma AlignedRead(read: string, later: string)
    requires read == "" || read[|read| - 1] == '\n'
    ensures Payloads(Split(read + later)) == PayloadsOfRead(read) + Payloads(Split(later))
  {
    if read == "" {
      assert read + later == later && PayloadsOfRead(read) == [];
    } else {
      var line := read[..|read| - 1];
      assert read == line + "\n";
      NewlineRead(line);
      LineThen(line, later);
    }
  }

  lemma {:induction false} AlignedPayloads(input: seq<string>)
    requires Aligned(input)
    ensures FlatMap(PayloadsOfRead, input) == Payloads(Split(Concat(input)))
  {
    if input == [] {
      BlankLineSilent();
    } else if |input| == 1 {
      assert input == [input[0]];
      assert Concat(input) == input[0] + "" == input[0];
      FlatMapOne(PayloadsOfRead, input[0]);
      BlankLineSilent();
    } else {
      var rest := input[1..];
      assert forall i :: 0 <= i < |rest| - 1 ==> rest[i] == input[i + 1];
      AlignedPayloads(rest);
      AlignedRead(input[0], Concat(rest));
    }
  }

  /** Regrouping: with aligned reads, only the bytes matter, not how they were cut into reads. */
  lemma RegroupingInvisible(decode: Decoder, input: seq<string>, input': seq<string>)
    requires Aligned(input) && Aligned(input') && Concat(input) == Concat(input')
    ensures TranscriptOf(decode, input) == TranscriptOf(decode, input')
  {
    AlignedPayloads(input);
    AlignedPayloads(input');
  }

  // ----- reads that end inside a line

  /** A decoder under which every payload speaks for itself. */
  function EchoDecoder(payload: string): Option<Object> {
    var part := Obj(map["text" := Str(payload)]);
    Some(map["candidates" := Arr([Obj(map["content" := Obj(map["parts" := Arr([part])])])])])
  }

  ghost predicate Echoes(decode: Decoder) {
    forall p :: DecodeChunk(decode, p) == Chunk(p, "")
  }

  lemma EchoDecoderEchoes()
    ensures Echoes(EchoDecoder)
  {
  }

  lemma TextOnly(t: Transcript, text: string)
    requires t.complete == [] && text != ""
    ensures Extend(t, Chunk(text, "")) == Transcript([], t.open + [text])
  {
  }

  lemma GroupLast(decode: Decoder, payloads: seq<string>, c: Chunk)
    requires payloads != [] && DecodeChunk(decode, payloads[|payloads| - 1]) == c
    ensures Group(decode, payloads) == Extend(Group(decode, payloads[..|payloads| - 1]), c)
  {
  }

  lemma {:induction false} EchoGroup(decode: Decoder, payloads: seq<string>)
    requires Echoes(decode) && "" !in payloads
    ensures Group(decode, payloads) == Transcript([], payloads)
  {
    if payloads != [] {
      var before, last := payloads[..|payloads| - 1], payloads[|payloads| - 1];
      assert last in payloads;
      assert before + [last] == payloads;
      EchoGroup(decode, before);
      GroupLast(decode, payloads, Chunk(last, ""));
      TextOnly(Transcript([], before), last);
    }
  }

  lemma {:induction false} PayloadsNonempty(lines: seq<string>)
    ensures "" !in Payloads(lines)
  {
    if lines != [] { PayloadsNonempty(lines[1..]); }
  }

  /** Reads that differ in what they hand to the decoder are told apart by an echoing one. */
  lemma PayloadsMatter(decode: Decoder, input: seq<string>, whole: string)
    requires Echoes(decode) && TranscriptOf(decode, input) == TranscriptOf(decode, [whole])
    requires "" !in FlatMap(PayloadsOfRead, input)
    ensures FlatMap(PayloadsOfRead, input) == PayloadsOfRead(whole)
  {
    FlatMapOne(PayloadsOfRead, whole);
    PayloadsNonempty(LinesOfRead(whole));
    EchoGroup(decode, FlatMap(PayloadsOfRead, input));
    EchoGroup(decode, PayloadsOfRead(whole));
  }

  lemma ReadIsLines(read: string)
    ensures PayloadsOfRead(read) == Payloads(Split(read))
  {
    BlankLineSilent();
  }

  /** What the lines after a line break hand over. */
  function PayloadsAfter(after: string): seq<string> {
    if after == "" then [] else Payloads(Split(after[1..]))
  }

  lemma LineAndRest(text: string, after: string)
    requires '\n' !in text && (after == "" || after[0] == '\n')
    ensures Payloads(Split(text + after)) == LinePayload(text) + PayloadsAfter(after)
  {
    SplitLine(text);
    FlatMapOne(LinePayload, text);
    if after == "" {
      assert text + after == text;
    } else {
      assert text + after == text + "\n" + after[1..];
      LineThen(text, after[1..]);
    }
  }

  /** A line with whole lines before and after it. */
  lemma LineInside(before: string, text: string, after: string)
    requires (before == "" || before[|before| - 1] == '\n') && '\n' !in text && (after == "" || after[0] == '\n')
    ensures PayloadsOfRead(before + (text + after))
      == PayloadsOfRead(before) + (LinePayload(text) + PayloadsAfter(after))
  {
    ReadIsLines(before + (text + after));
    AlignedRead(before, text + after);
    LineAndRest(text, after);
  }

  /** What all decoders see alike was handed over alike. */
  lemma SeenAlike(first: string, second: string, whole: string)
    requires forall decode: Decoder :: TranscriptOf(decode, [first, second]) == TranscriptOf(decode, [whole])
    ensures FlatMap(PayloadsOfRead, [first, second]) == PayloadsOfRead(whole)
  {
    PayloadsNonempty(LinesOfRead(first));
    PayloadsNonempty(LinesOfRead(second));
    TwoReads(first, second);
    EchoDecoderEchoes();
    PayloadsMatter(EchoDecoder, [first, second], whole);
  }

  lemma HandedAlike(first: string, second: string, whole: string)
    requires FlatMap(PayloadsOfRead, [first, second]) == PayloadsOfRead(whole)
    ensures forall decode: Decoder :: TranscriptOf(decode, [first, second]) == TranscriptOf(decode, [whole])
  {
    FlatMapOne(PayloadsOfRead, whole);
  }

  /**
   * A read that ends inside a line is harmless, whatever the decoder, exactly when the two halves of that line hand
   * over the same payloads as the whole line.
   */
  lemma CutExact(before: string, x: string, y: string, after: string)
    requires (before == "" || before[|before| - 1] == '\n') && (after == "" || after[0] == '\n')
    requires '\n' !in x && '\n' !in y
    ensures
      (forall decode: Decoder ::
        TranscriptOf(decode, [before + x, y + after]) == TranscriptOf(decode, [before + (x + y + after)]))
      <==> LinePayload(x) + LinePayload(y) == LinePayload(x + y)
  {
    var first, second, whole := before + x, y + after, before + (x + y + after);
    CutPayloads(before, x, y, after);
    LineInside(before, x + y, after);
    Cancel(PayloadsOfRead(before), LinePayload(x) + LinePayload(y), LinePayload(x + y), PayloadsAfter(after));
    if LinePayload(x) + LinePayload(y) == LinePayload(x + y) {
      HandedAlike(first, second, whole);
    } else if forall decode: Decoder :: TranscriptOf(decode, [first, second]) == TranscriptOf(decode, [whole]) {
      SeenAlike(first, second, whole);
    }
  }

  lemma TwoReads(a: string, b: string)
    ensures FlatMap(PayloadsOfRead, [a, b]) == PayloadsOfRead(a) + PayloadsOfRead(b)
  {
    assert [a] + [b] == [a, b];
    FlatMapAppend(PayloadsOfRead, [a], [b]);
    FlatMapOne(PayloadsOfRead, a);
    FlatMapOne(PayloadsOfRead, b);
  }

  lemma CutPayloads(before: string, x: string, y: string, after: string)
    requires (before == "" || before[|before| - 1] == '\n') && (after == "" || after[0] == '\n')
    requires '\n' !in x && '\n' !in y
    ensures FlatMap(PayloadsOfRead, [before + x, y + after])
      == PayloadsOfRead(before) + (LinePayload(x) + LinePayload(y) + PayloadsAfter(after))
  {
    TwoReads(before + x, y + after);
    LineInside(before, x, "");
    assert x + "" == x && LinePayload(x) + [] == LinePayload(x);
    ReadIsLines(y + after);
    LineAndRest(y, after);
    Regroup(PayloadsOfRead(before), LinePayload(x), LinePayload(y), PayloadsAfter(after));
  }

  lemma Regroup<T>(a: seq<T>, b: seq<T>, c: seq<T>, d: seq<T>)
    ensures (a + b) + (c + d) == a + (b + c + d)
  {
  }

  lemma Cancel<T>(left: seq<T>, a: seq<T>, b: seq<T>, right: seq<T>)
    ensures left + (a + right) == left + (b + right) <==> a == b
  {
    if left + (a + right) == left + (b + right) {
      assert |a| == |b|;
      assert (left + (a + right))[|left|..|left| + |a|] == a;
      assert (left + (b + right))[|left|..|left| + |b|] == b;
    }
  }

  lemma SolidPayload(s: string)
    requires s in {"{", "}", "{}"}
    ensures Payload(s) == Some(s)
  {
    TrimPadded("", s, "");
    assert "" + s + "" == s;
    assert StripLead(s) == s && StripTail(s) == s by {
      assert s[0] != 'd' && s[0] != '[' && s[|s| - 1] != ',' && s[|s| - 1] != ']';
      assert "data:"[0] == 'd' && "["[0] == '[';
    }
  }

  /** A line cut into two halves that both hand something over is lost. */
  lemma HalvesLost(x: string, y: string)
    requires '\n' !in x && '\n' !in y && LinePayload(x) != [] && LinePayload(y) != []
    ensures exists decode: Decoder :: TranscriptOf(decode, [x, y]) != TranscriptOf(decode, [x + y])
  {
    CutExact("", x, y, "");
    assert "" + x == x && y + "" == y && "" + (x + y + "") == x + y;
  }

  /** The source never rejoins a line: this one, cut in the middle, is not the line it was. */
  lemma CutLineLost()
    ensures exists decode: Decoder :: TranscriptOf(decode, ["{", "}"]) != TranscriptOf(decode, ["{" + "}"])
  {
    SolidPayload("{");
    SolidPayload("}");
    HalvesLost("{", "}");
  }

  // ----- the framing of the input

  /**
   * Framing and grouping together: however a list of objects is framed, and however that text is cut into aligned
   * reads, the translators see exactly the decoded objects in order.
   */
  lemma FramingInvisible(decode: Decoder, style: Style, objects: seq<string>, input: seq<string>)
    requires ObjectTexts(objects) && Aligned(input) && Concat(input) == Print(style, objects)
    ensures TranscriptOf(decode, input) == Group(decode, objects)
  {
    AlignedPayloads(input);
    FramingRoundTrip(style, objects);
  }

  // ----- what a client can observe

  function AnthropicText(e: AnthropicEvent): seq<string> {
    if e.BlockDelta? then [e.text] else []
  }

  function OpenAIText(e: OpenAIEvent): seq<string> {
    if e.ChatChunk? && e.content.Some? then [e.content.value] else []
  }

  /** One entry per completed message. */
  function AnthropicEnd(e: AnthropicEvent): seq<bool> {
    if e.MessageStop? then [true] else []
  }

  function OpenAIEnd(e: OpenAIEvent): seq<bool> {
    if e.Done? then [true] else []
  }

  lemma {:induction false} AnthropicDeltaTexts(texts: seq<string>)
    ensures FlatMap(AnthropicText, AnthropicDeltas(texts)) == texts
    ensures FlatMap(AnthropicEnd, AnthropicDeltas(texts)) == []
  {
    if texts != [] {
      assert AnthropicDeltas(texts)[1..] == AnthropicDeltas(texts[1..]);
      AnthropicDeltaTexts(texts[1..]);
    }
  }

  lemma {:induction false} OpenAIDeltaTexts(l: Labels, texts: seq<string>)
    ensures FlatMap(OpenAIText, OpenAIDeltas(l, texts)) == texts
    ensures FlatMap(OpenAIEnd, OpenAIDeltas(l, texts)) == []
  {
    if texts != [] {
      assert OpenAIDeltas(l, texts)[1..] == OpenAIDeltas(l, texts[1..]);
      OpenAIDeltaTexts(l, texts[1..]);
    }
  }

  /** Opening, then deltas: exactly the deltas are seen. */
  lemma AnthropicOpenPart(l: Labels, texts: seq<string>)
    ensures FlatMap(AnthropicText, AnthropicOpening(l) + AnthropicDeltas(texts)) == texts
    ensures FlatMap(AnthropicEnd, AnthropicOpening(l) + AnthropicDeltas(texts)) == []
  {
    AnthropicDeltaTexts(texts);
    FlatMapAppend(AnthropicText, AnthropicOpening(l), AnthropicDeltas(texts));
    FlatMapAppend(AnthropicEnd, AnthropicOpening(l), AnthropicDeltas(texts));
    assert AnthropicOpening(l)[1..] == [BlockStart(0)] && [BlockStart(0)][1..] == [];
    assert FlatMap(AnthropicText, [BlockStart(0)]) == [] && FlatMap(AnthropicEnd, [BlockStart(0)]) == [];
  }

  lemma AnthropicClosingPart(finish: string, tokens: nat)
    ensures FlatMap(AnthropicText, AnthropicClosing(finish, tokens)) == []
    ensures FlatMap(AnthropicEnd, AnthropicClosing(finish, tokens)) == [true]
  {
    var c := AnthropicClosing(finish, tokens);
    assert c == [c[0]] + ([c[1]] + [c[2]]);
    FlatMapAppend(AnthropicText, [c[0]], [c[1]] + [c[2]]);
    FlatMapAppend(AnthropicText, [c[1]], [c[2]]);
    FlatMapAppend(AnthropicEnd, [c[0]], [c[1]] + [c[2]]);
    FlatMapAppend(AnthropicEnd, [c[1]], [c[2]]);
  }

  lemma {:induction false} AnthropicMessageTexts(l: Labels, messages: seq<Message>)
    ensures FlatMap(AnthropicText, AnthropicMessages(l, messages)) == DeltasOf(messages)
    ensures |FlatMap(AnthropicEnd, AnthropicMessages(l, messages))| == |messages|
  {
    if messages != [] {
      var n := |messages| - 1;
      var m := messages[n];
      var head := AnthropicOpening(l) + AnthropicDeltas(m.deltas);
      var tail := AnthropicClosing(m.finish, |DeltasOf(messages)|);
      AnthropicMessageTexts(l, messages[..n]);
      AnthropicOpenPart(l, m.deltas);
      AnthropicClosingPart(m.finish, |DeltasOf(messages)|);
      FlatMapAppend(AnthropicText, head, tail);
      FlatMapAppend(AnthropicEnd, head, tail);
      FlatMapAppend(AnthropicText, AnthropicMessages(l, messages[..n]), head + tail);
      FlatMapAppend(AnthropicEnd, AnthropicMessages(l, messages[..n]), head + tail);
    }
  }

  lemma AnthropicDelivers(l: Labels, t: Transcript)
    ensures FlatMap(AnthropicText, AnthropicEvents(l, t)) == AllDeltas(t)
    ensures |FlatMap(AnthropicEnd, AnthropicEvents(l, t))| == |t.complete|
  {
    AnthropicMessageTexts(l, t.complete);
    AnthropicOpenPart(l, t.open);
    var last := if t.open == [] then [] else AnthropicOpening(l) + AnthropicDeltas(t.open);
    FlatMapAppend(AnthropicText, AnthropicMessages(l, t.complete), last);
    FlatMapAppend(AnthropicEnd, AnthropicMessages(l, t.complete), last);
  }

  lemma OpenAIOpenPart(l: Labels, texts: seq<string>)
    ensures FlatMap(OpenAIText, OpenAIOpening(l) + OpenAIDeltas(l, texts)) == texts
    ensures FlatMap(OpenAIEnd, OpenAIOpening(l) + OpenAIDeltas(l, texts)) == []
  {
    OpenAIDeltaTexts(l, texts);
    FlatMapAppend(OpenAIText, OpenAIOpening(l), OpenAIDeltas(l, texts));
    FlatMapAppend(OpenAIEnd, OpenAIOpening(l), OpenAIDeltas(l, texts));
  }

  lemma OpenAIClosingPart(l: Labels, finish: string)
    ensures FlatMap(OpenAIText, OpenAIClosing(l, finish)) == []
    ensures FlatMap(OpenAIEnd, OpenAIClosing(l, finish)) == [true]
  {
    var c := OpenAIClosing(l, finish);
    assert c == [c[0]] + [c[1]];
    FlatMapAppend(OpenAIText, [c[0]], [c[1]]);
    FlatMapAppend(OpenAIEnd, [c[0]], [c[1]]);
  }

  lemma {:induction false} OpenAIMessageTexts(l: Labels, messages: seq<Message>)
    ensures FlatMap(OpenAIText, OpenAIMessages(l, messages)) == DeltasOf(messages)
    ensures |FlatMap(OpenAIEnd, OpenAIMessages(l, messages))| == |messages|
  {
    if messages != [] {
      var n := |messages| - 1;
      var m := messages[n];
      var head, tail := OpenAIOpening(l) + OpenAIDeltas(l, m.deltas), OpenAIClosing(l, m.finish);
      OpenAIMessageTexts(l, messages[..n]);
      OpenAIOpenPart(l, m.deltas);
      OpenAIClosingPart(l, m.finish);
      FlatMapAppend(OpenAIText, head, tail);
      FlatMapAppend(OpenAIEnd, head, tail);
      FlatMapAppend(OpenAIText, OpenAIMessages(l, messages[..n]), head + tail);
      FlatMapAppend(OpenAIEnd, OpenAIMessages(l, messages[..n]), head + tail);
    }
  }

  lemma OpenAIDelivers(l: Labels, t: Transcript)
    ensures FlatMap(OpenAIText, OpenAIEvents(l, t)) == AllDeltas(t)
    ensures |FlatMap(OpenAIEnd, OpenAIEvents(l, t))| == |t.complete|
  {
    OpenAIMessageTexts(l, t.complete);
    OpenAIOpenPart(l, t.open);
    var last := if t.open == [] then [] else OpenAIOpening(l) + OpenAIDeltas(l, t.open);
    FlatMapAppend(OpenAIText, OpenAIMessages(l, t.complete), last);
    FlatMapAppend(OpenAIEnd, OpenAIMessages(l, t.complete), last);
  }

  /**
   * Lockstep: on any input the two translators write the same text pieces and complete the same number of messages,
   * and what either returns is the concatenation of the pieces it wrote.
   */
  lemma Lockstep(decode: Decoder, input: seq<string>, l: Labels, l': Labels)
    ensures
      var a, o := AnthropicEvents(l, TranscriptOf(decode, input)), OpenAIEvents(l', TranscriptOf(decode, input));
      && FlatMap(AnthropicText, a) == FlatMap(OpenAIText, o)
      && |FlatMap(AnthropicEnd, a)| == |FlatMap(OpenAIEnd, o)|
      && Concat(AllDeltas(TranscriptOf(decode, input))) == Concat(FlatMap(AnthropicText, a))
        == Concat(FlatMap(OpenAIText, o))
  {
    AnthropicDelivers(l, TranscriptOf(decode, input));
    OpenAIDelivers(l', TranscriptOf(decode, input));
  }

  // ----- the event protocols, as automata a client could run

  datatype Phase = Outside | Begun | InBlock(deltas: nat) | BlockEnded | Closing | Violated

  function AnthropicPhase(p: Phase, e: AnthropicEvent): Phase {
    match (p, e)
    case (Outside, MessageStart(_, _, _)) => Begun
    case (Begun, BlockStart(0)) => InBlock(0)
    case (InBlock(n), BlockDelta(0, text)) => if text == "" then Violated else InBlock(n + 1)
    case (InBlock(_), BlockStop(0)) => BlockEnded
    case (BlockEnded, MessageDelta(_, _)) => Closing
    case (Closing, MessageStop) => Outside
    case _ => Violated
  }

  function AnthropicRun(p: Phase, events: seq<AnthropicEvent>): Phase
    decreases |events|
  {
    if events == [] then p else AnthropicRun(AnthropicPhase(p, events[0]), events[1..])
  }

  /** Role announcement, then nonempty contents, then a finish reason, then `[DONE]`. */
  function OpenAIPhase(p: Phase, e: OpenAIEvent): Phase {
    match (p, e)
    case (Outside, ChatChunk(_, _, _, true, None, Null)) => InBlock(0)
    case (InBlock(n), ChatChunk(_, _, _, false, Some(text), Null)) => if text == "" then Violated else InBlock(n + 1)
    case (InBlock(_), ChatChunk(_, _, _, false, None, Str(_))) => Closing
    case (Closing, Done) => Outside
    case _ => Violated
  }

  function OpenAIRun(p: Phase, events: seq<OpenAIEvent>): Phase
    decreases |events|
  {
    if events == [] then p else OpenAIRun(OpenAIPhase(p, events[0]), events[1..])
  }

  lemma {:induction false} AnthropicRunAppend(p: Phase, a: seq<AnthropicEvent>, b: seq<AnthropicEvent>)
    ensures AnthropicRun(p, a + b) == AnthropicRun(AnthropicRun(p, a), b)
    decreases |a|
  {
    if a == [] {
      assert a + b == b;
    } else {
      assert (a + b)[1..] == a[1..] + b;
      AnthropicRunAppend(AnthropicPhase(p, a[0]), a[1..], b);
    }
  }

  lemma {:induction false} OpenAIRunAppend(p: Phase, a: seq<OpenAIEvent>, b: seq<OpenAIEvent>)
    ensures OpenAIRun(p, a + b) == OpenAIRun(OpenAIRun(p, a), b)
    decreases |a|
  {
    if a == [] {
      assert a + b == b;
    } else {
      assert (a + b)[1..] == a[1..] + b;
      OpenAIRunAppend(OpenAIPhase(p, a[0]), a[1..], b);
    }
  }

  ghost predicate NoEmptyText(texts: seq<string>) {
    forall x :: x in texts ==> x != ""
  }

  /** Every text piece kept in a transcript is nonempty. */
  ghost predicate Spoken(t: Transcript) {
    NoEmptyText(t.open) && forall m :: m in t.complete ==> NoEmptyText(m.deltas)
  }

  lemma {:induction false} GroupSpoken(decode: Decoder, payloads: seq<string>)
    ensures Spoken(Group(decode, payloads))
  {
    if payloads != [] { GroupSpoken(decode, payloads[..|payloads| - 1]); }
  }

  lemma {:induction false} AnthropicDeltasRun(n: nat, texts: seq<string>)
    requires NoEmptyText(texts)
    ensures AnthropicRun(InBlock(n), AnthropicDeltas(texts)) == InBlock(n + |texts|)
    decreases |texts|
  {
    if texts != [] {
      assert texts[0] in texts && forall x :: x in texts[1..] ==> x in texts;
      assert AnthropicDeltas(texts)[1..] == AnthropicDeltas(texts[1..]);
      AnthropicDeltasRun(n + 1, texts[1..]);
    }
  }

  lemma {:induction false} OpenAIDeltasRun(l: Labels, n: nat, texts: seq<string>)
    requires NoEmptyText(texts)
    ensures OpenAIRun(InBlock(n), OpenAIDeltas(l, texts)) == InBlock(n + |texts|)
    decreases |texts|
  {
    if texts != [] {
      assert texts[0] in texts && forall x :: x in texts[1..] ==> x in texts;
      assert OpenAIDeltas(l, texts)[1..] == OpenAIDeltas(l, texts[1..]);
      OpenAIDeltasRun(l, n + 1, texts[1..]);
    }
  }

  lemma AnthropicOpenRun(l: Labels, texts: seq<string>)
    requires NoEmptyText(texts)
    ensures AnthropicRun(Outside, AnthropicOpening(l) + AnthropicDeltas(texts)) == InBlock(|texts|)
  {
    AnthropicRunAppend(Outside, AnthropicOpening(l), AnthropicDeltas(texts));
    assert AnthropicOpening(l)[1..] == [BlockStart(0)] && [BlockStart(0)][1..] == [];
    assert AnthropicRun(Begun, [BlockStart(0)]) == InBlock(0);
    AnthropicDeltasRun(0, texts);
  }

  lemma AnthropicCloseRun(n: nat, finish: string, tokens: nat)
    ensures AnthropicRun(InBlock(n), AnthropicClosing(finish, tokens)) == Outside
  {
    var c := AnthropicClosing(finish, tokens);
    assert c[1..] == [c[1], c[2]] && [c[1], c[2]][1..] == [c[2]] && [c[2]][1..] == [];
    assert AnthropicRun(Closing, [c[2]]) == Outside;
    assert AnthropicRun(BlockEnded, [c[1], c[2]]) == Outside;
  }

  lemma {:induction false} AnthropicMessagesRun(l: Labels, messages: seq<Message>)
    requires forall m :: m in messages ==> NoEmptyText(m.deltas)
    ensures AnthropicRun(Outside, AnthropicMessages(l, messages)) == Outside
  {
    if messages != [] {
      var n := |messages| - 1;
      var m := messages[n];
      var head := AnthropicOpening(l) + AnthropicDeltas(m.deltas);
      var tail := AnthropicClosing(m.finish, |DeltasOf(messages)|);
      AnthropicMessagesRun(l, messages[..n]);
      AnthropicRunAppend(Outside, AnthropicMessages(l, messages[..n]), head + tail);
      AnthropicRunAppend(Outside, head, tail);
      AnthropicOpenRun(l, m.deltas);
      AnthropicCloseRun(|m.deltas|, m.finish, |DeltasOf(messages)|);
    }
  }

  lemma AnthropicPhaseAfter(decode: Decoder, payloads: seq<string>, l: Labels)
    ensures
      var t := Group(decode, payloads);
      AnthropicRun(Outside, AnthropicEvents(l, t)) == if t.open == [] then Outside else InBlock(|t.open|)
  {
    var t := Group(decode, payloads);
    GroupSpoken(decode, payloads);
    AnthropicMessagesRun(l, t.complete);
    AnthropicOpenRun(l, t.open);
    AnthropicRunAppend(Outside, AnthropicMessages(l, t.complete),
                       if t.open == [] then [] else AnthropicOpening(l) + AnthropicDeltas(t.open));
  }

  /**
   * On any input the Anthropic output obeys the protocol; it stops between messages or after a delta, never
   * elsewhere.
   */
  lemma AnthropicProtocol(decode: Decoder, input: seq<string>, l: Labels)
    ensures
      var t := TranscriptOf(decode, input);
      AnthropicRun(Outside, AnthropicEvents(l, t)) == if t.open == [] then Outside else InBlock(|t.open|)
  {
    AnthropicPhaseAfter(decode, FlatMap(PayloadsOfRead, input), l);
  }

  lemma {:induction false} OpenAIMessagesRun(l: Labels, messages: seq<Message>)
    requires forall m :: m in messages ==> NoEmptyText(m.deltas)
    ensures OpenAIRun(Outside, OpenAIMessages(l, messages)) == Outside
  {
    if messages != [] {
      var n := |messages| - 1;
      var m := messages[n];
      var head, tail := OpenAIOpening(l) + OpenAIDeltas(l, m.deltas), OpenAIClosing(l, m.finish);
      OpenAIMessagesRun(l, messages[..n]);
      OpenAIRunAppend(Outside, OpenAIMessages(l, messages[..n]), head + tail);
      OpenAIRunAppend(Outside, head, tail);
      OpenAIOpenRun(l, m.deltas);
      assert tail[1..] == [Done] && [Done][1..] == [];
      assert OpenAIRun(Closing, [Done]) == Outside;
    }
  }

  lemma OpenAIOpenRun(l: Labels, texts: seq<string>)
    requires NoEmptyText(texts)
    ensures OpenAIRun(Outside, OpenAIOpening(l) + OpenAIDeltas(l, texts)) == InBlock(|texts|)
  {
    OpenAIRunAppend(Outside, OpenAIOpening(l), OpenAIDeltas(l, texts));
    OpenAIDeltasRun(l, 0, texts);
  }

  lemma OpenAIPhaseAfter(decode: Decoder, payloads: seq<string>, l: Labels)
    ensures
      var t := Group(decode, payloads);
      OpenAIRun(Outside, OpenAIEvents(l, t)) == if t.open == [] then Outside else InBlock(|t.open|)
  {
    var t := Group(decode, payloads);
    GroupSpoken(decode, payloads);
    OpenAIMessagesRun(l, t.complete);
    OpenAIOpenRun(l, t.open);
    OpenAIRunAppend(Outside, OpenAIMessages(l, t.complete),
                    if t.open == [] then [] else OpenAIOpening(l) + OpenAIDeltas(l, t.open));
  }

  lemma OpenAIProtocol(decode: Decoder, input: seq<string>, l: Labels)
    ensures
      var t := TranscriptOf(decode, input);
      OpenAIRun(Outside, OpenAIEvents(l, t)) == if t.open == [] then Outside else InBlock(|t.open|)
  {
    OpenAIPhaseAfter(decode, FlatMap(PayloadsOfRead, input), l);
  }

  /**
   * Lockstep of the local variables: whenever the two translators have seen the same payloads, which their loops
   * keep up line by line, `started` equals `roleSent`, both say whether a message is open on the wire, and the texts
   * accumulated and written are the same.
   */
  lemma LockstepLines(decode: Decoder, seen: seq<string>,
                      l: Labels, a: seq<AnthropicEvent>, accumulated: string, started: bool, totalTokens: int,
                      l': Labels, o: seq<OpenAIEvent>, accumulated': string, roleSent: bool)
    requires AnthropicState(l, Group(decode, seen), a, accumulated, started, totalTokens)
    requires OpenAIState(l', Group(decode, seen), o, accumulated', roleSent)
    ensures started == roleSent == AnthropicRun(Outside, a).InBlock? == OpenAIRun(Outside, o).InBlock?
    ensures FlatMap(AnthropicText, a) == FlatMap(OpenAIText, o) && |FlatMap(AnthropicEnd, a)| == |FlatMap(OpenAIEnd, o)|
    ensures accumulated == accumulated' == Concat(FlatMap(OpenAIText, o)) && totalTokens == |FlatMap(OpenAIText, o)|
  {
    AnthropicPhaseAfter(decode, seen, l);
    OpenAIPhaseAfter(decode, seen, l');
    AnthropicDelivers(l, Group(decode, seen));
    OpenAIDelivers(l', Group(decode, seen));
  }

  // ----- token counts

  lemma {:induction false} MessageTokens(l: Labels, messages: seq<Message>, i: nat)
    requires i < |AnthropicMessages(l, messages)| && AnthropicMessages(l, messages)[i].MessageDelta?
    ensures AnthropicMessages(l, messages)[i].outputTokens
      == |FlatMap(AnthropicText, AnthropicMessages(l, messages)[..i])|
  {
    var n := |messages| - 1;
    var prev, m, all := AnthropicMessages(l, messages[..n]), messages[n], AnthropicMessages(l, messages);
    if i < |prev| {
      MessageTokens(l, messages[..n], i);
      assert all[..i] == prev[..i];
    } else {
      var head := AnthropicOpening(l) + AnthropicDeltas(m.deltas);
      assert i == |prev| + |head| + 1;
      assert all[..i] == prev + (head + [BlockStop(0)]);
      AnthropicMessageTexts(l, messages[..n]);
      AnthropicOpenPart(l, m.deltas);
      FlatMapAppend(AnthropicText, head, [BlockStop(0)]);
      FlatMapAppend(AnthropicText, prev, head + [BlockStop(0)]);
    }
  }

  /** Every `output_tokens` reported is the number of text deltas written before it, over the whole stream. */
  lemma TokensCountDeltas(l: Labels, t: Transcript, i: nat)
    requires i < |AnthropicEvents(l, t)| && AnthropicEvents(l, t)[i].MessageDelta?
    ensures AnthropicEvents(l, t)[i].outputTokens == |FlatMap(AnthropicText, AnthropicEvents(l, t)[..i])|
  {
    var done := AnthropicMessages(l, t.complete);
    assert i < |done|;
    assert AnthropicEvents(l, t)[..i] == done[..i];
    MessageTokens(l, t.complete, i);
  }

  // ----- how a stream ends

  lemma SilentLast(decode: Decoder, payloads: seq<string>)
    requires payloads != [] && DecodeChunk(decode, payloads[|payloads| - 1]).Silent()
    ensures Group(decode, payloads) == Group(decode, payloads[..|payloads| - 1])
  {
    var t := Group(decode, payloads[..|payloads| - 1]);
    assert t.open + [] == t.open;
  }

  lemma {:induction false} SilentTail(decode: Decoder, payloads: seq<string>, k: nat)
    requires k <= |payloads| && forall j :: k <= j < |payloads| ==> DecodeChunk(decode, payloads[j]).Silent()
    ensures Group(decode, payloads) == Group(decode, payloads[..k])
    decreases |payloads|
  {
    if k == |payloads| {
      assert payloads[..k] == payloads;
    } else {
      var earlier := payloads[..|payloads| - 1];
      SilentLast(decode, payloads);
      SilentTail(decode, earlier, k);
      assert earlier[..k] == payloads[..k];
    }
  }

  /** A stream ends inside a message exactly when its last speaking object carries no finish reason. */
  lemma {:induction false} EndsOpen(decode: Decoder, payloads: seq<string>, k: nat)
    requires k < |payloads| && !DecodeChunk(decode, payloads[k]).Silent()
    requires forall j :: k < j < |payloads| ==> DecodeChunk(decode, payloads[j]).Silent()
    ensures Group(decode, payloads).open != [] <==> DecodeChunk(decode, payloads[k]).finish == ""
  {
    SilentTail(decode, payloads, k + 1);
    SpokenLast(decode, payloads[..k + 1]);
  }

  lemma SpokenLast(decode: Decoder, payloads: seq<string>)
    requires payloads != [] && !DecodeChunk(decode, payloads[|payloads| - 1]).Silent()
    ensures Group(decode, payloads).open != [] <==> DecodeChunk(decode, payloads[|payloads| - 1]).finish == ""
  {
  }

  // ----- strict mode against live streaming

  lemma SameText(response: Object)
    ensures ExtractGeminiText(response) == ChunkOf(response).text
    ensures FinishReason(response) == ChunkOf(response).finish
  {
  }

  /** An event without its token counts. */
  function Unmetered(e: AnthropicEvent): AnthropicEvent {
    match e
    case MessageStart(id, model, _) => MessageStart(id, model, 0)
    case MessageDelta(stop, _) => MessageDelta(stop, 0)
    case _ => e
  }

  ghost predicate EqualButTokens(a: seq<AnthropicEvent>, b: seq<AnthropicEvent>) {
    |a| == |b| && forall i :: 0 <= i < |a| ==> Unmetered(a[i]) == Unmetered(b[i])
  }

  lemma StrictEvents(response: Object, l: Labels)
    ensures AnthropicSSE(TranslateGeminiToAnthropic(response, l.model, l.id)) ==
      [MessageStart(Str(l.id), Str(l.model), 0),
       BlockStart(0), BlockDelta(0, ExtractGeminiText(response)), BlockStop(0),
       MessageDelta(Str(AnthropicStopReason(FinishReason(response))), 0), MessageStop]
  {
    var msg := TranslateGeminiToAnthropic(response, l.model, l.id);
    var content := AsArray(Get(msg, "content"));
    assert |content| == 1 && BlockEvents(content, 0) == [];
    assert BlockEvents(content, 1) == [BlockStart(0), BlockDelta(0, ExtractGeminiText(response)), BlockStop(0)];
  }

  lemma LiveEvents(c: Chunk, l: Labels)
    ensures AnthropicEvents(l, Extend(Transcript([], []), c)) ==
      (if c.Silent() then [] else AnthropicOpening(l))
      + (if c.text == "" then [] else [BlockDelta(0, c.text)])
      + (if c.finish == "" then [] else AnthropicClosing(c.finish, if c.text == "" then 0 else 1))
  {
    var t := Transcript([], []);
    assert AnthropicEvents(l, t) == [];
    if !c.Silent() {
      AnthropicExtend(l, t, c);
      ExtendDeltas(t, c);
    }
  }

  /**
   * A strict-mode event stream is, token counts apart, the live translation of the same response, exactly when the
   * response has both text and a finish reason. (Without text strict mode still writes an empty delta; without a
   * finish reason it still ends the message.)
   */
  lemma StrictMatchesLive(response: Object, l: Labels)
    ensures
      var strict := AnthropicSSE(TranslateGeminiToAnthropic(response, l.model, l.id));
      var live := AnthropicEvents(l, Extend(Transcript([], []), ChunkOf(response)));
      EqualButTokens(strict, live) <==> ChunkOf(response).text != "" && ChunkOf(response).finish != ""
  {
    SameText(response);
    StrictEvents(response, l);
    LiveEvents(ChunkOf(response), l);
  }
}
