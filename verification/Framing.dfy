/** How one line of a Vertex AI stream is stripped of its framing and decoded (internal/streaming, ParseGeminiChunk). */
module Framing {
  import opened Sequences
  import opened Strings
  import opened Json

  /** The text part and the finish reason of one decoded line; both empty when the line carries neither. */
  datatype Chunk = Chunk(text: string, finish: string) {
    predicate Silent() { text == "" && finish == "" }
  }

  /** `json.Unmarshal` into a map, as far as the proxy can see it; `None` is a decoding error. */
  type Decoder = string -> Option<Object>

  /** The text a line hands to the JSON decoder, if any. */
  function Payload(line: string): Option<string> {
    var trimmed := TrimSpace(line);
    if trimmed == "" || trimmed == "[" || trimmed == "]" || trimmed == "," then None
    else
      var text := StripTail(StripLead(trimmed));
      if text == "" then None else Some(text)
  }

  function StripLead(trimmed: string): string {
    if "data:" <= trimmed then TrimSpace(trimmed[5..])
    else if "[" <= trimmed then trimmed[1..]
    else trimmed
  }

  function StripTail(body: string): string {
    TrimSpace(TrimSuffix(TrimSuffix(body, ','), ']'))
  }

  /** The candidate, text and finish-reason lookups on a decoded object. */
  function ChunkOf(o: Object): Chunk {
    var candidate := AsObject(First(AsArray(Get(o, "candidates"))));
    var part := AsObject(First(AsArray(Get(AsObject(Get(candidate, "content")), "parts"))));
    Chunk(StrVal(Get(part, "text"), ""), StrVal(Get(candidate, "finishReason"), ""))
  }

  function DecodeChunk(decode: Decoder, payload: string): Chunk {
    match decode(payload)
    case None => Chunk("", "")
    case Some(o) => ChunkOf(o)
  }

  function ParseGeminiChunk(decode: Decoder, line: string): Chunk {
    match Payload(line)
    case None => Chunk("", "")
    case Some(payload) => DecodeChunk(decode, payload)
  }

  function LinePayload(line: string): seq<string> {
    match Payload(line)
    case None => []
    case Some(payload) => [payload]
  }

  /** Everything a run of lines hands to the decoder. */
  function Payloads(lines: seq<string>): seq<string> {
    FlatMap(LinePayload, lines)
  }

  // ----- what a framed line may look like

  /** The text of one JSON object on one line. */
  ghost predicate ObjectText(o: string) {
    |o| >= 2 && o[0] == '{' && o[|o| - 1] == '}' && '\n' !in o
  }

  ghost predicate ObjectTexts(objects: seq<string>) {
    forall o :: o in objects ==> ObjectText(o)
  }

  /** What surrounds an object on its line: a prefix, an array separator, and white space around and between them. */
  datatype Frame = Frame(left: string, lead: string, mid: string, gap: string, tail: string, right: string) {
    ghost predicate Valid() {
      && AllSpace(left) && AllSpace(mid) && AllSpace(gap) && AllSpace(right)
      && lead in {"", "[", "data:"} && (lead == "" ==> mid == "")
      && tail in {"", ",", "]", "],"} && (tail == "" ==> gap == "")
    }

    function Around(o: string): string {
      left + (lead + mid + o + gap + tail) + right
    }
  }

  ghost predicate FramedBy(line: string, o: string, f: Frame) {
    f.Valid() && line == f.Around(o)
  }

  /**
   * A line holding `o` behind any of the three prefixes and before any array separator, padded with any white space.
   */
  ghost predicate Decorates(line: string, o: string) {
    exists f: Frame :: FramedBy(line, o, f)
  }

  ghost predicate NoiseBy(line: string, left: string, mark: string, right: string) {
    AllSpace(left) && AllSpace(right) && mark in {"", "[", "]", ",", "],", "[]", "data:"} && line == left + mark + right
  }

  /** A blank line, or array punctuation on a line of its own. */
  ghost predicate Noise(line: string) {
    exists left, mark, right :: NoiseBy(line, left, mark, right)
  }

  /** The lines show these objects, in this order, each on a line of its own, with any noise lines in between. */
  ghost predicate Shows(lines: seq<string>, objects: seq<string>) {
    if lines == [] then objects == []
    else
      || (Noise(lines[0]) && Shows(lines[1..], objects))
      || (objects != [] && Decorates(lines[0], objects[0]) && Shows(lines[1..], objects[1..]))
  }

  lemma TailStripped(head: string, o: string, gap: string, tail: string)
    requires ObjectText(o) && AllSpace(head) && AllSpace(gap)
    requires tail in {"", ",", "]", "],"} && (tail == "" ==> gap == "")
    ensures StripTail(head + (o + gap + tail)) == o
  {
    var solid := head + o;
    assert head + (o + gap + tail) == solid + gap + tail;
    var body := solid + gap + tail;
    assert solid[|solid| - 1] == '}';
    NoTail(solid, gap);
    TrimPadded(head, o, gap);
    if tail == "" {
      assert body == solid + gap && gap == "";
    } else if tail == "]," {
      assert body[..|body| - 1] == solid + gap + "]";
      assert (solid + gap + "]")[..|body| - 2] == solid + gap;
    } else {
      assert body[..|body| - 1] == solid + gap;
    }
  }

  lemma NoTail(solid: string, gap: string)
    requires solid != "" && solid[|solid| - 1] == '}' && AllSpace(gap)
    ensures TrimSuffix(solid + gap, ']') == solid + gap
  {
    var s := solid + gap;
    if gap != "" {
      assert s[|s| - 1] == gap[|gap| - 1];
      assert gap[|gap| - 1] in gap;
    }
  }

  lemma LeadStripped(lead: string, mid: string, solid: string)
    requires lead in {"", "[", "data:"} && AllSpace(mid) && (lead == "" ==> mid == "")
    requires solid != "" && solid[0] == '{' && !IsSpace(solid[|solid| - 1])
    ensures StripLead(lead + mid + solid) == (if lead == "data:" then "" else mid) + solid
  {
    assert "" + solid == solid;
    var core := lead + mid + solid;
    assert "data:" <= core ==> core[0] == "data:"[0];
    if lead == "data:" {
      assert core[5..] == mid + solid + "";
      TrimPadded(mid, solid, "");
    } else if lead == "[" {
      assert core[0] == '[' && core[1..] == mid + solid;
    } else {
      assert core == solid;
    }
  }

  lemma SolidEnd(o: string, gap: string, tail: string)
    requires ObjectText(o) && tail in {"", ",", "]", "],"} && (tail == "" ==> gap == "")
    ensures var solid := o + gap + tail; solid[0] == '{' && !IsSpace(solid[|solid| - 1])
  {
    var solid := o + gap + tail;
    if tail == "" {
      assert solid == o;
    } else {
      assert solid[|solid| - 1] == tail[|tail| - 1];
    }
  }

  lemma SolidStart(lead: string, mid: string, solid: string)
    requires lead in {"", "[", "data:"} && (lead == "" ==> mid == "") && solid != "" && !IsSpace(solid[0])
    ensures !IsSpace((lead + mid + solid)[0])
  {
    if lead == "" {
      assert lead + mid + solid == solid;
    } else {
      assert (lead + mid + solid)[0] == lead[0];
    }
  }

  lemma DecoratedTrimmed(line: string, o: string, f: Frame)
    requires ObjectText(o) && FramedBy(line, o, f)
    ensures TrimSpace(line) == f.lead + f.mid + (o + f.gap + f.tail)
  {
    var solid := o + f.gap + f.tail;
    SolidEnd(o, f.gap, f.tail);
    SolidStart(f.lead, f.mid, solid);
    assert f.lead + f.mid + o + f.gap + f.tail == f.lead + f.mid + solid;
    TrimPadded(f.left, f.lead + f.mid + solid, f.right);
  }

  lemma PayloadOf(line: string, trimmed: string, body: string, o: string)
    requires TrimSpace(line) == trimmed && |trimmed| >= 2
    requires StripLead(trimmed) == body && StripTail(body) == o && o != ""
    ensures Payload(line) == Some(o)
  {
  }

  lemma DecoratedPayload(line: string, o: string, f: Frame)
    requires ObjectText(o) && FramedBy(line, o, f)
    ensures Payload(line) == Some(o)
  {
    DecoratedTrimmed(line, o, f);
    SolidEnd(o, f.gap, f.tail);
    var head, solid := if f.lead == "data:" then "" else f.mid, o + f.gap + f.tail;
    LeadStripped(f.lead, f.mid, solid);
    TailStripped(head, o, f.gap, f.tail);
    PayloadOf(line, f.lead + f.mid + solid, head + solid, o);
  }

  lemma NoisePayload(line: string)
    requires Noise(line)
    ensures Payload(line) == None
  {
    var left, mark, right :| NoiseBy(line, left, mark, right);
    if mark == "" {
      assert line == left + right;
      TrimBlank(line);
    } else {
      TrimPadded(left, mark, right);
      assert "data:"[5..] == "" && "[]"[1..] == "]" && "]"[..0] == "";
    }
  }

  /** Whatever the framing, stripping it returns exactly the objects shown, in order. */
  lemma {:induction false} ShownPayloads(lines: seq<string>, objects: seq<string>)
    requires ObjectTexts(objects) && Shows(lines, objects)
    ensures Payloads(lines) == objects
  {
    if lines != [] {
      if Noise(lines[0]) && Shows(lines[1..], objects) {
        NoisePayload(lines[0]);
        ShownPayloads(lines[1..], objects);
      } else {
        var f :| FramedBy(lines[0], objects[0], f);
        DecoratedPayload(lines[0], objects[0], f);
        ShownPayloads(lines[1..], objects[1..]);
      }
    }
  }

  // ----- the framings Vertex AI and its relatives use

  datatype Style = InlineArray | SpreadArray | NewlineDelimited | DataLines

  /** `[o1,` … `on]`, one object per line. */
  function ArrayLines(objects: seq<string>, first: bool): seq<string> {
    if objects == [] then (if first then ["[]"] else [])
    else
      [(if first then "[" else "") + objects[0] + (if |objects| == 1 then "]" else ",")]
      + ArrayLines(objects[1..], false)
  }

  /** Separators on their own lines. */
  function SpreadLines(objects: seq<string>): seq<string> {
    if objects == [] then ["]"]
    else [objects[0]] + (if |objects| == 1 then [] else [","]) + SpreadLines(objects[1..])
  }

  function DataFieldLines(objects: seq<string>): seq<string> {
    if objects == [] then [""] else ["data: " + objects[0], ""] + DataFieldLines(objects[1..])
  }

  function StyleLines(style: Style, objects: seq<string>): seq<string> {
    match style
    case InlineArray => ArrayLines(objects, true)
    case SpreadArray => ["["] + SpreadLines(objects)
    case NewlineDelimited => objects + [""]
    case DataLines => DataFieldLines(objects)
  }

  function Print(style: Style, objects: seq<string>): string {
    Join(StyleLines(style, objects), "\n")
  }

  lemma ShowNoise(mark: string, rest: seq<string>, objects: seq<string>)
    requires mark in {"", "[", "]", ",", "[]"} && Shows(rest, objects)
    ensures Shows([mark] + rest, objects)
  {
    assert NoiseBy(mark, "", mark, "");
    assert ([mark] + rest)[1..] == rest;
  }

  lemma ShowObject(line: string, lead: string, mid: string, o: string, tail: string, rest: seq<string>,
                   objects: seq<string>)
    requires ObjectTexts([o] + objects) && Shows(rest, objects)
    requires lead in {"", "[", "data:"} && AllSpace(mid) && (lead == "" ==> mid == "") && tail in {"", ",", "]"}
    requires line == lead + mid + o + tail
    ensures Shows([line] + rest, [o] + objects)
  {
    assert ([line] + rest)[1..] == rest && ([o] + objects)[1..] == objects;
    var f := Frame("", lead, mid, "", tail, "");
    assert f.Around(o) == line;
    assert FramedBy(([line] + rest)[0], ([o] + objects)[0], f);
  }

  lemma {:induction false} ArrayShows(objects: seq<string>, first: bool)
    requires ObjectTexts(objects)
    ensures Shows(ArrayLines(objects, first), objects)
    ensures forall l :: l in ArrayLines(objects, first) ==> '\n' !in l
  {
    if objects == [] {
      if first { ShowNoise("[]", [], []); }
    } else {
      var o := objects[0];
      assert objects == [o] + objects[1..];
      ArrayShows(objects[1..], false);
      assert ObjectText(o);
      var lead, tail := if first then "[" else "", if |objects| == 1 then "]" else ",";
      assert lead + o + tail == lead + "" + o + tail;
      ShowObject(lead + o + tail, lead, "", o, tail, ArrayLines(objects[1..], false), objects[1..]);
    }
  }

  lemma {:induction false} SpreadShows(objects: seq<string>)
    requires ObjectTexts(objects)
    ensures Shows(SpreadLines(objects), objects)
    ensures forall l :: l in SpreadLines(objects) ==> '\n' !in l
  {
    if objects == [] {
      ShowNoise("]", [], []);
    } else {
      var o, rest := objects[0], SpreadLines(objects[1..]);
      assert objects == [o] + objects[1..];
      SpreadShows(objects[1..]);
      assert ObjectText(o);
      assert o == "" + "" + o + "";
      if |objects| == 1 {
        assert [o] + [] + rest == [o] + rest;
        ShowObject(o, "", "", o, "", rest, objects[1..]);
      } else {
        ShowNoise(",", rest, objects[1..]);
        ShowObject(o, "", "", o, "", [","] + rest, objects[1..]);
        assert [o] + [","] + rest == [o] + ([","] + rest);
      }
    }
  }

  lemma {:induction false} DelimitedShows(objects: seq<string>)
    requires ObjectTexts(objects)
    ensures Shows(objects + [""], objects)
  {
    if objects == [] {
      ShowNoise("", [], []);
      assert objects + [""] == [""] + [];
    } else {
      var o := objects[0];
      assert objects == [o] + objects[1..];
      DelimitedShows(objects[1..]);
      assert o == "" + "" + o + "";
      ShowObject(o, "", "", o, "", objects[1..] + [""], objects[1..]);
      assert objects + [""] == [o] + (objects[1..] + [""]);
    }
  }

  lemma {:induction false} DataShows(objects: seq<string>)
    requires ObjectTexts(objects)
    ensures Shows(DataFieldLines(objects), objects)
    ensures forall l :: l in DataFieldLines(objects) ==> '\n' !in l
  {
    if objects == [] {
      ShowNoise("", [], []);
    } else {
      var o, rest := objects[0], DataFieldLines(objects[1..]);
      assert objects == [o] + objects[1..];
      DataShows(objects[1..]);
      assert ObjectText(o);
      ShowNoise("", rest, objects[1..]);
      assert "data: " + o == "data:" + " " + o + "";
      ShowObject("data: " + o, "data:", " ", o, "", [""] + rest, objects[1..]);
      assert ["data: " + o, ""] + rest == ["data: " + o] + ([""] + rest);
    }
  }

  /** Framing round trip: printing in any of the four styles, then cutting into lines and stripping, is the identity. */
  lemma FramingRoundTrip(style: Style, objects: seq<string>)
    requires ObjectTexts(objects)
    ensures Payloads(Split(Print(style, objects))) == objects
  {
    var lines := StyleLines(style, objects);
    match style {
      case InlineArray => ArrayShows(objects, true);
      case SpreadArray =>
        SpreadShows(objects);
        ShowNoise("[", SpreadLines(objects), objects);
      case NewlineDelimited => DelimitedShows(objects);
      case DataLines => DataShows(objects);
    }
    SplitJoin(lines);
    ShownPayloads(lines, objects);
  }
}
