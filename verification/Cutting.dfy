/** Where in a framed line a read may end without changing what the translators see. */
module Cutting {
  import opened Sequences
  import opened Strings
  import opened Json
  import opened Framing
  import opened Streaming
  import opened StreamTheorems

  /** Where the object begins. */
  function Start(f: Frame): nat {
    |f.left| + |f.lead| + |f.mid|
  }

  predicate InsideLead(f: Frame, p: nat) {
    f.lead == "data:" && |f.left| < p < |f.left| + |f.lead|
  }

  predicate InsideObject(o: string, f: Frame, p: nat) {
    Start(f) < p < Start(f) + |o|
  }

  ghost predicate HandsOver(x: string, y: string, o: string) {
    LinePayload(x) + LinePayload(y) == [o]
  }

  lemma NoiseLeft(x: string, y: string, o: string, f: Frame, left: string, mark: string, right: string)
    requires ObjectText(o) && NoiseBy(x, left, mark, right) && FramedBy(y, o, f)
    ensures HandsOver(x, y, o)
  {
    assert Noise(x);
    NoisePayload(x);
    DecoratedPayload(y, o, f);
  }

  lemma NoiseRight(x: string, y: string, o: string, f: Frame, left: string, mark: string, right: string)
    requires ObjectText(o) && FramedBy(x, o, f) && NoiseBy(y, left, mark, right)
    ensures HandsOver(x, y, o)
  {
    assert Noise(y);
    NoisePayload(y);
    DecoratedPayload(x, o, f);
  }

  lemma Seam(s: string, x: string, y: string)
    requires s == x + y
    ensures s[..|x|] == x && s[|x|..] == y
  {
  }

  lemma SpacePart(s: string, k: nat)
    requires AllSpace(s) && k <= |s|
    ensures AllSpace(s[..k]) && AllSpace(s[k..]) && s == s[..k] + s[k..]
  {
  }

  // ----- harmless places

  lemma CutInLeft(line: string, o: string, f: Frame, p: nat)
    requires ObjectText(o) && FramedBy(line, o, f) && p <= |f.left|
    ensures HandsOver(line[..p], line[p..], o)
  {
    SpacePart(f.left, p);
    var x, g := f.left[..p], f.(left := f.left[p..]);
    assert line == x + g.Around(o);
    Seam(line, x, g.Around(o));
    assert x == x + "" + "";
    NoiseLeft(x, g.Around(o), o, g, x, "", "");
  }

  lemma CutInMid(line: string, o: string, f: Frame, p: nat)
    requires ObjectText(o) && FramedBy(line, o, f) && f.lead != "" && |f.left| + |f.lead| <= p <= Start(f)
    ensures p <= |line| && HandsOver(line[..p], line[p..], o)
  {
    var k := p - |f.left| - |f.lead|;
    SpacePart(f.mid, k);
    var x, g := f.left + f.lead + f.mid[..k], f.(left := f.mid[k..], lead := "", mid := "");
    assert line == x + g.Around(o);
    Seam(line, x, g.Around(o));
    NoiseLeft(x, g.Around(o), o, g, f.left, f.lead, f.mid[..k]);
  }

  function End(o: string, f: Frame): nat {
    Start(f) + |o|
  }

  lemma CutInGap(line: string, o: string, f: Frame, p: nat)
    requires ObjectText(o) && FramedBy(line, o, f) && End(o, f) <= p <= End(o, f) + |f.gap|
    ensures p <= |line| && HandsOver(line[..p], line[p..], o)
  {
    var k := p - End(o, f);
    SpacePart(f.gap, k);
    var y, g := f.gap[k..] + f.tail + f.right, f.(gap := "", tail := "", right := f.gap[..k]);
    assert line == g.Around(o) + y;
    Seam(line, g.Around(o), y);
    NoiseRight(g.Around(o), y, o, g, f.gap[k..], f.tail, f.right);
  }

  lemma CutInTail(line: string, o: string, f: Frame, p: nat)
    requires ObjectText(o) && FramedBy(line, o, f) && End(o, f) + |f.gap| < p < End(o, f) + |f.gap| + |f.tail|
    ensures p <= |line| && HandsOver(line[..p], line[p..], o)
  {
    var y, g := "" + "," + f.right, f.(tail := "]", right := "");
    assert f.tail == "]" + ",";
    assert line == g.Around(o) + y;
    Seam(line, g.Around(o), y);
    NoiseRight(g.Around(o), y, o, g, "", ",", f.right);
  }

  lemma CutInRight(line: string, o: string, f: Frame, p: nat)
    requires ObjectText(o) && FramedBy(line, o, f) && End(o, f) + |f.gap| + |f.tail| <= p <= |line|
    ensures HandsOver(line[..p], line[p..], o)
  {
    var k := p - End(o, f) - |f.gap| - |f.tail|;
    SpacePart(f.right, k);
    var y, g := f.right[k..], f.(right := f.right[..k]);
    assert line == g.Around(o) + y;
    Seam(line, g.Around(o), y);
    assert y == y + "" + "";
    NoiseRight(g.Around(o), y, o, g, y, "", "");
  }

  // ----- harmful places

  lemma WrongFirst(x: string, y: string, o: string)
    requires Payload(x).Some? && Payload(x).value != o
    ensures !HandsOver(x, y, o)
  {
    assert (LinePayload(x) + LinePayload(y))[0] == Payload(x).value;
  }

  lemma CutInLead(line: string, o: string, f: Frame, p: nat)
    requires ObjectText(o) && FramedBy(line, o, f) && InsideLead(f, p)
    ensures p <= |line| && !HandsOver(line[..p], line[p..], o)
  {
    var k := p - |f.left|;
    var x := f.left + "data:"[..k];
    assert line[..p] == x;
    LeadPart(f.left, k);
    WrongFirst(x, line[p..], o);
  }

  lemma LeadPart(left: string, k: nat)
    requires AllSpace(left) && 0 < k < 5
    ensures Payload(left + "data:"[..k]) == Some("data:"[..k]) && "data:"[..k][0] == 'd'
  {
    var part := "data:"[..k];
    assert part[k - 1] in {'d', 'a', 't'};
    TrimPadded(left, part, "");
    assert left + part + "" == left + part;
    TrimPadded("", part, "");
    assert "" + part + "" == part;
    assert part[0] == 'd' && StripLead(part) == part && StripTail(part) == part;
  }

  /** Trimming on the right leaves a prefix, and only white space behind it. */
  lemma {:induction false} TrimmedRight(s: string)
    ensures TrimRight(s) <= s && AllSpace(s[|TrimRight(s)|..])
    ensures TrimRight(s) != "" ==> !IsSpace(TrimRight(s)[|TrimRight(s)| - 1])
    ensures s != "" && !IsSpace(s[0]) ==> TrimRight(s) != ""
  {
    if s != "" && IsSpace(s[|s| - 1]) {
      TrimmedRight(s[..|s| - 1]);
      assert s[|TrimRight(s)|..] == s[..|s| - 1][|TrimRight(s)|..] + [s[|s| - 1]];
    }
  }

  /** A line that starts like a framed object hands over something no longer than what follows the prefix. */
  lemma PartPayload(left: string, lead: string, mid: string, part: string)
    requires AllSpace(left) && AllSpace(mid) && lead in {"", "[", "data:"} && (lead == "" ==> mid == "")
    requires part != "" && part[0] == '{'
    ensures
      var payload := Payload(left + (lead + mid + part));
      payload.Some? && |payload.value| <= |part|
  {
    TrimmedRight(part);
    var solid, rest := TrimRight(part), part[|TrimRight(part)|..];
    assert solid[0] == '{' && part == solid + rest;
    var trimmed, head := lead + mid + solid, if lead == "data:" then "" else mid;
    SolidStart(lead, mid, solid);
    assert trimmed[|trimmed| - 1] == solid[|solid| - 1];
    TrimPadded(left, trimmed, rest);
    assert left + trimmed + rest == left + (lead + mid + part);
    LeadStripped(lead, mid, solid);
    PartTail(head, solid);
    BraceLine(left + (lead + mid + part), trimmed, solid);
  }

  lemma BraceLine(line: string, trimmed: string, solid: string)
    requires TrimSpace(line) == trimmed && |solid| <= |trimmed| && solid != "" && solid[0] == '{'
    requires trimmed[|trimmed| - |solid|] == '{' && StripTail(StripLead(trimmed)) != ""
    ensures Payload(line) == Some(StripTail(StripLead(trimmed)))
  {
    var at := |trimmed| - |solid|;
    assert trimmed != "" && trimmed != "[" && trimmed != "]" && trimmed != ",";
  }

  lemma PartTail(head: string, solid: string)
    requires AllSpace(head) && solid != "" && solid[0] == '{'
    ensures StripTail(head + solid) != "" && |StripTail(head + solid)| <= |solid|
  {
    var first := TrimSuffix(solid, ',');
    var second := TrimSuffix(first, ']');
    assert first[0] == '{' && second[0] == '{';
    SuffixBehind(head, solid, ',');
    SuffixBehind(head, first, ']');
    TrimLeftPad(head, second);
    TrimmedRight(second);
  }

  lemma SuffixBehind(head: string, s: string, c: char)
    requires s != ""
    ensures TrimSuffix(head + s, c) == head + TrimSuffix(s, c)
  {
    assert (head + s)[|head + s| - 1] == s[|s| - 1];
    assert (head + s)[..|head + s| - 1] == head + s[..|s| - 1];
  }

  lemma CutInObject(line: string, o: string, f: Frame, p: nat)
    requires ObjectText(o) && FramedBy(line, o, f) && InsideObject(o, f, p)
    ensures p <= |line| && !HandsOver(line[..p], line[p..], o)
  {
    var k := p - Start(f);
    var x := f.left + (f.lead + f.mid + o[..k]);
    assert line[..p] == x;
    PartPayload(f.left, f.lead, f.mid, o[..k]);
    WrongFirst(x, line[p..], o);
  }

  // ----- the theorem

  lemma CutElsewhere(line: string, o: string, f: Frame, p: nat)
    requires ObjectText(o) && FramedBy(line, o, f) && p <= |line| && !InsideLead(f, p) && !InsideObject(o, f, p)
    ensures HandsOver(line[..p], line[p..], o)
  {
    if p <= |f.left| {
      CutInLeft(line, o, f, p);
    } else if p <= Start(f) {
      LeadLength(f, p);
      CutInMid(line, o, f, p);
    } else if p <= End(o, f) + |f.gap| {
      CutInGap(line, o, f, p);
    } else if p < End(o, f) + |f.gap| + |f.tail| {
      CutInTail(line, o, f, p);
    } else {
      CutInRight(line, o, f, p);
    }
  }

  lemma LeadLength(f: Frame, p: nat)
    requires f.Valid() && |f.left| < p <= Start(f) && !InsideLead(f, p)
    ensures f.lead != "" && |f.left| + |f.lead| <= p
  {
  }

  /**
   * The two halves of a framed line hand over its object exactly when the cut is in neither the prefix nor the
   * object.
   */
  lemma CutPosition(line: string, o: string, f: Frame, p: nat)
    requires ObjectText(o) && FramedBy(line, o, f) && p <= |line|
    ensures LinePayload(line[..p]) + LinePayload(line[p..]) == [o] <==> !InsideLead(f, p) && !InsideObject(o, f, p)
  {
    if InsideLead(f, p) {
      CutInLead(line, o, f, p);
    } else if InsideObject(o, f, p) {
      CutInObject(line, o, f, p);
    } else {
      CutElsewhere(line, o, f, p);
    }
  }

  /**
   * A read that ends inside a framed line, with whole lines before and after it, is harmless for every decoder exactly
   * when it ends neither inside a `data:` prefix nor inside the object.
   */
  lemma FramedCutExact(before: string, line: string, after: string, o: string, f: Frame, p: nat)
    requires (before == "" || before[|before| - 1] == '\n') && (after == "" || after[0] == '\n')
    requires ObjectText(o) && FramedBy(line, o, f) && '\n' !in line && p <= |line|
    ensures
      (forall decode: Decoder ::
        TranscriptOf(decode, [before + line[..p], line[p..] + after])
          == TranscriptOf(decode, [before + (line + after)]))
      <==> !InsideLead(f, p) && !InsideObject(o, f, p)
  {
    assert line[..p] + line[p..] == line;
    CutExact(before, line[..p], line[p..], after);
    DecoratedPayload(line, o, f);
    CutPosition(line, o, f, p);
  }
}
