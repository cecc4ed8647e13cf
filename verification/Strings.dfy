/** The string helpers of Go's standard library that the proxy relies on, as specification functions. */
module Strings {

  datatype Option<+T> = None | Some(value: T)

  /** Membership in Unicode White_Space, the set `unicode.IsSpace` tests. */
  predicate IsSpace(c: char) {
    || c in {'\t', '\n', '\U{000B}', '\U{000C}', '\r', ' ', '\U{0085}', '\U{00A0}', '\U{1680}'}
    || '\U{2000}' <= c <= '\U{200A}'
    || c in {'\U{2028}', '\U{2029}', '\U{202F}', '\U{205F}', '\U{3000}'}
  }

  ghost predicate AllSpace(s: string) {
    forall c :: c in s ==> IsSpace(c)
  }

  function TrimLeft(s: string): string {
    if s != "" && IsSpace(s[0]) then TrimLeft(s[1..]) else s
  }

  function TrimRight(s: string): string {
    if s != "" && IsSpace(s[|s| - 1]) then TrimRight(s[..|s| - 1]) else s
  }

  function TrimSpace(s: string): string {
    TrimRight(TrimLeft(s))
  }

  function TrimSuffix(s: string, c: char): string {
    if s != "" && s[|s| - 1] == c then s[..|s| - 1] else s
  }

  /** `strings.Split(s, "\n")`: always at least one piece. */
  function Split(s: string): (pieces: seq<string>)
    ensures |pieces| >= 1
  {
    if s == "" then [""] else Push(s[0], Split(s[1..]))
  }

  /** One more character in front: a newline starts a new piece, anything else extends the first. */
  function Push(c: char, pieces: seq<string>): seq<string>
    requires |pieces| >= 1
  {
    if c == '\n' then [""] + pieces else [[c] + pieces[0]] + pieces[1..]
  }

  function Join(parts: seq<string>, sep: string): string {
    if parts == [] then ""
    else if |parts| == 1 then parts[0]
    else parts[0] + sep + Join(parts[1..], sep)
  }

  function Concat(parts: seq<string>): string {
    if parts == [] then "" else parts[0] + Concat(parts[1..])
  }

  ghost predicate OccursAt(needle: string, hay: string, i: int) {
    0 <= i <= i + |needle| <= |hay| && hay[i..i + |needle|] == needle
  }

  ghost predicate Substring(needle: string, hay: string) {
    exists i :: OccursAt(needle, hay, i)
  }

  /** The texts occur in `hay` one after another, in this order, without overlapping. */
  ghost predicate Embedded(texts: seq<string>, hay: string) {
    texts == [] || exists i :: OccursAt(texts[0], hay, i) && Embedded(texts[1..], hay[i + |texts[0]|..])
  }

  // ----- Split and Join are inverse, and Split cuts at every newline

  /** Together these two facts determine the pieces: they are the newline-free parts of `s`. */
  lemma {:induction false} SplitSound(s: string)
    ensures Join(Split(s), "\n") == s
    ensures forall p :: p in Split(s) ==> '\n' !in p
  {
    if s != "" {
      SplitSound(s[1..]);
      var rest := Split(s[1..]);
      assert s == [s[0]] + s[1..];
      if s[0] == '\n' {
        assert ([""] + rest)[1..] == rest;
      } else {
        var pieces := [[s[0]] + rest[0]] + rest[1..];
        assert pieces[1..] == rest[1..];
        if |rest| > 1 {
          assert Join(pieces, "\n") == [s[0]] + (rest[0] + "\n" + Join(rest[1..], "\n"));
        }
      }
    }
  }

  lemma PushAppend(c: char, a: seq<string>, b: seq<string>)
    requires |a| >= 1
    ensures Push(c, a + b) == Push(c, a) + b
  {
    if c == '\n' {
      assert [""] + (a + b) == [""] + a + b;
    } else {
      assert (a + b)[1..] == a[1..] + b;
    }
  }

  lemma {:induction false} SplitAtNewline(a: string, b: string)
    ensures Split(a + "\n" + b) == Split(a) + Split(b)
  {
    var s := a + "\n" + b;
    if a == "" {
      assert s[0] == '\n' && s[1..] == b;
    } else {
      assert s[0] == a[0] && s[1..] == a[1..] + "\n" + b;
      SplitAtNewline(a[1..], b);
      PushAppend(a[0], Split(a[1..]), Split(b));
    }
  }

  lemma {:induction false} SplitLine(a: string)
    requires '\n' !in a
    ensures Split(a) == [a]
  {
    if a != "" {
      SplitLine(a[1..]);
      assert a == [a[0]] + a[1..];
    }
  }

  lemma {:induction false} SplitJoin(lines: seq<string>)
    requires lines != [] && forall l :: l in lines ==> '\n' !in l
    ensures Split(Join(lines, "\n")) == lines
  {
    if |lines| == 1 {
      SplitLine(lines[0]);
    } else {
      SplitJoin(lines[1..]);
      SplitLine(lines[0]);
      SplitAtNewline(lines[0], Join(lines[1..], "\n"));
      assert lines == [lines[0]] + lines[1..];
    }
  }

  lemma {:induction false} ConcatAppend(a: seq<string>, b: seq<string>)
    ensures Concat(a + b) == Concat(a) + Concat(b)
  {
    if a == [] {
      assert a + b == b;
    } else {
      assert (a + b)[1..] == a[1..] + b;
      ConcatAppend(a[1..], b);
    }
  }

  // ----- trimming

  /** Trimming removes exactly the surrounding white space of a text with solid ends. */
  lemma TrimPadded(left: string, core: string, right: string)
    requires AllSpace(left) && AllSpace(right)
    requires core != "" && !IsSpace(core[0]) && !IsSpace(core[|core| - 1])
    ensures TrimSpace(left + core + right) == core
  {
    TrimLeftPad(left, core + right);
    assert left + core + right == left + (core + right);
    assert (core + right)[0] == core[0];
    TrimRightPad(core, right);
  }

  /** The white space of protocols and keyboards, and none of the characters that JSON text is made of. */
  lemma WhiteSpace(c: char)
    ensures c in " \t\n\r" ==> IsSpace(c)
    ensures '!' <= c <= '~' ==> !IsSpace(c)
  {
  }

  lemma {:induction false} TrimBlank(s: string)
    requires AllSpace(s)
    ensures TrimSpace(s) == ""
  {
    if s != "" { TrimBlank(s[1..]); }
  }

  lemma {:induction false} TrimLeftPad(left: string, rest: string)
    requires AllSpace(left) && rest != "" && !IsSpace(rest[0])
    ensures TrimLeft(left + rest) == rest
  {
    if left == "" {
      assert left + rest == rest;
    } else {
      assert (left + rest)[1..] == left[1..] + rest;
      TrimLeftPad(left[1..], rest);
    }
  }

  lemma {:induction false} TrimRightPad(rest: string, right: string)
    requires AllSpace(right) && rest != "" && !IsSpace(rest[|rest| - 1])
    ensures TrimRight(rest + right) == rest
  {
    if right == "" {
      assert rest + right == rest;
    } else {
      var n := |rest + right| - 1;
      assert (rest + right)[..n] == rest + right[..|right| - 1];
      TrimRightPad(rest, right[..|right| - 1]);
    }
  }

  // ----- occurrence

  lemma {:induction false} EmbeddedShift(texts: seq<string>, pre: string, hay: string)
    requires Embedded(texts, hay)
    ensures Embedded(texts, pre + hay)
  {
    if texts != [] {
      var i :| OccursAt(texts[0], hay, i) && Embedded(texts[1..], hay[i + |texts[0]|..]);
      var j := |pre| + i;
      assert (pre + hay)[j..j + |texts[0]|] == hay[i..i + |texts[0]|];
      assert (pre + hay)[j + |texts[0]|..] == hay[i + |texts[0]|..];
      assert OccursAt(texts[0], pre + hay, j);
    }
  }

  lemma EmbeddedCons(text: string, rest: seq<string>, hay: string)
    requires Embedded(rest, hay)
    ensures Embedded([text] + rest, text + hay)
  {
    var all := [text] + rest;
    assert all[1..] == rest;
    assert (text + hay)[|text|..] == hay;
    assert OccursAt(all[0], text + hay, 0);
  }

  lemma {:induction false} EmbeddedEach(texts: seq<string>, hay: string, k: nat)
    requires Embedded(texts, hay) && k < |texts|
    ensures Substring(texts[k], hay)
  {
    var i :| OccursAt(texts[0], hay, i) && Embedded(texts[1..], hay[i + |texts[0]|..]);
    if k > 0 {
      var off := i + |texts[0]|;
      EmbeddedEach(texts[1..], hay[off..], k - 1);
      var j :| OccursAt(texts[k], hay[off..], j);
      assert hay[off + j..off + j + |texts[k]|] == hay[off..][j..j + |texts[k]|];
      assert OccursAt(texts[k], hay, off + j);
    }
  }

  /** Joining puts every part into the result, in order. */
  lemma {:induction false} JoinEmbeds(parts: seq<string>, sep: string)
    ensures Embedded(parts, Join(parts, sep))
  {
    if parts != [] {
      assert parts == [parts[0]] + parts[1..];
      if |parts| == 1 {
        assert parts[0] + "" == parts[0];
        EmbeddedCons(parts[0], [], "");
      } else {
        JoinEmbeds(parts[1..], sep);
        EmbeddedShift(parts[1..], sep, Join(parts[1..], sep));
        EmbeddedCons(parts[0], parts[1..], sep + Join(parts[1..], sep));
        assert parts[0] + sep + Join(parts[1..], sep) == parts[0] + (sep + Join(parts[1..], sep));
      }
    }
  }
}
