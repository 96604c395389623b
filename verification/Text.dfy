/** Strings as both ends of the stream see them: concatenation of network reads,
    trimming, prefixes and splitting at newlines. */
module Text {

  datatype Option<+T> = None | Some(value: T)

  /** The text that a sequence of writes or reads carries. */
  function Concat(parts: seq<string>): string {
    if parts == [] then "" else parts[0] + Concat(parts[1..])
  }

  lemma {:induction false} ConcatAppend(a: seq<string>, b: seq<string>)
    ensures Concat(a + b) == Concat(a) + Concat(b)
  {
    if a == [] {
      assert a + b == b;
    } else {
      assert (a + b)[1..] == a[1..] + b;
      ConcatAppend(a[1..], b);
    }
  }

  predicate StartsWith(s: string, prefix: string) {
    prefix <= s
  }

  // ---------------------------------------------------------------- trimming

  function TrimStart(space: char -> bool, s: string): string {
    if s != "" && space(s[0]) then TrimStart(space, s[1..]) else s
  }

  function TrimEnd(space: char -> bool, s: string): string {
    if s != "" && space(s[|s| - 1]) then TrimEnd(space, s[..|s| - 1]) else s
  }

  function Trim(space: char -> bool, s: string): string {
    TrimEnd(space, TrimStart(space, s))
  }

  /** White space and line terminators removed by `String.prototype.trim`. */
  predicate JsSpace(c: char) {
    || '\U{9}' <= c <= '\U{D}' || c == ' ' || c == '\U{A0}' || c == '\U{1680}'
    || '\U{2000}' <= c <= '\U{200A}' || c == '\U{2028}' || c == '\U{2029}'
    || c == '\U{202F}' || c == '\U{205F}' || c == '\U{3000}' || c == '\U{FEFF}'
  }

  /** Characters removed by `str.strip`: the separators U+001C to U+001F and
      U+0085 as well, but not U+FEFF. */
  predicate PySpace(c: char) {
    || '\U{9}' <= c <= '\U{D}' || '\U{1C}' <= c <= ' ' || c == '\U{85}' || c == '\U{A0}'
    || c == '\U{1680}' || '\U{2000}' <= c <= '\U{200A}' || c == '\U{2028}' || c == '\U{2029}'
    || c == '\U{202F}' || c == '\U{205F}' || c == '\U{3000}'
  }

  lemma {:induction false} TrimEndIsPrefix(space: char -> bool, s: string)
    ensures TrimEnd(space, s) <= s
  {
    if s != "" && space(s[|s| - 1]) {
      TrimEndIsPrefix(space, s[..|s| - 1]);
    }
  }

  lemma {:induction false} TrimEndKeeps(space: char -> bool, s: string, i: nat)
    requires i < |s| && !space(s[i])
    ensures i < |TrimEnd(space, s)|
  {
    if space(s[|s| - 1]) {
      TrimEndKeeps(space, s[..|s| - 1], i);
    }
  }

  /** Text that neither begins nor ends with white space survives trimming. */
  lemma {:induction false} TrimTight(space: char -> bool, s: string)
    requires s != "" ==> !space(s[0]) && !space(s[|s| - 1])
    ensures Trim(space, s) == s
  {
  }

  lemma {:induction false} TrimPadded(space: char -> bool, before: string, text: string,
        after: string)
    requires forall c :: c in before + after ==> space(c)
    requires text != "" && !space(text[0]) && !space(text[|text| - 1])
    ensures Trim(space, before + text + after) == text
    decreases |before| + |after|
  {
    var padded := before + text + after;
    if before != "" {
      assert padded[0] == before[0] && padded[1..] == before[1..] + text + after;
      assert forall c :: c in before[1..] + after ==> c in before + after;
      TrimPadded(space, before[1..], text, after);
    } else if after != "" {
      var shorter := text + after[..|after| - 1];
      assert padded[..|padded| - 1] == shorter && padded[0] == text[0];
      assert before + text + after[..|after| - 1] == shorter;
      assert padded[|padded| - 1] == after[|after| - 1];
      assert forall c :: c in before + after[..|after| - 1] ==> c in before + after;
      TrimPadded(space, before, text, after[..|after| - 1]);
    } else {
      assert padded == text;
      TrimTight(space, text);
    }
  }

  /** Nothing but white space trims to nothing. */
  lemma {:induction false} TrimSpace(space: char -> bool, s: string)
    requires forall c :: c in s ==> space(c)
    ensures Trim(space, s) == ""
  {
    if s != "" {
      assert forall c :: c in s[1..] ==> c in s;
      TrimSpace(space, s[1..]);
    }
  }

  predicate Tight(space: char -> bool, s: string) {
    s == "" || (!space(s[0]) && !space(s[|s| - 1]))
  }

  lemma {:induction false} TrimEndSplits(space: char -> bool, s: string) returns (after: string)
    ensures s == TrimEnd(space, s) + after && forall c :: c in after ==> space(c)
    ensures TrimEnd(space, s) == "" || !space(TrimEnd(space, s)[|TrimEnd(space, s)| - 1])
  {
    after := "";
    if s != "" && space(s[|s| - 1]) {
      var rest := TrimEndSplits(space, s[..|s| - 1]);
      after := rest + [s[|s| - 1]];
      assert s == s[..|s| - 1] + [s[|s| - 1]];
    }
  }

  lemma {:induction false} TrimStartSplits(space: char -> bool, s: string)
        returns (before: string)
    ensures s == before + TrimStart(space, s) && forall c :: c in before ==> space(c)
    ensures TrimStart(space, s) == "" || !space(TrimStart(space, s)[0])
  {
    before := "";
    if s != "" && space(s[0]) {
      var rest := TrimStartSplits(space, s[1..]);
      before := [s[0]] + rest;
    }
  }

  /** What is trimmed away is white space, and what is left neither begins nor ends with
      it. */
  lemma {:induction false} TrimSplits(space: char -> bool, s: string)
        returns (before: string, after: string)
    ensures s == before + Trim(space, s) + after
    ensures (forall c :: c in before + after ==> space(c)) && Tight(space, Trim(space, s))
  {
    before := TrimStartSplits(space, s);
    after := TrimEndSplits(space, TrimStart(space, s));
    TrimEndIsPrefix(space, TrimStart(space, s));
    hide TrimStart, TrimEnd;
  }

  // --------------------------------------------------------------- splitting

  /** One more character in front of text already split. */
  function Grow(c: char, lines: seq<string>): (more: seq<string>)
    requires lines != []
    ensures more != []
  {
    if c == '\n' then [""] + lines else [[c] + lines[0]] + lines[1..]
  }

  /** `s.split('\n')`: always at least one piece. */
  function Split(s: string): (lines: seq<string>)
    ensures lines != []
  {
    if s == "" then [""] else Grow(s[0], Split(s[1..]))
  }

  function Join(lines: seq<string>): string
    requires lines != []
  {
    if |lines| == 1 then lines[0] else lines[0] + "\n" + Join(lines[1..])
  }

  function Last(lines: seq<string>): string
    requires lines != []
  {
    lines[|lines| - 1]
  }

  function Init(lines: seq<string>): seq<string>
    requires lines != []
  {
    lines[..|lines| - 1]
  }

  lemma {:induction false} JoinGrow(c: char, lines: seq<string>)
    requires lines != []
    ensures Join(Grow(c, lines)) == [c] + Join(lines)
  {
    if c == '\n' {
      assert ([""] + lines)[1..] == lines;
    } else if |lines| > 1 {
      assert Grow(c, lines)[1..] == lines[1..];
    }
  }

  /** Splitting is undone by joining, and no piece holds a newline: together
      these two facts determine the result of `split`. */
  lemma {:induction false} SplitJoin(s: string)
    ensures Join(Split(s)) == s
    ensures forall i :: 0 <= i < |Split(s)| ==> '\n' !in Split(s)[i]
  {
    if s != "" {
      SplitJoin(s[1..]);
      JoinGrow(s[0], Split(s[1..]));
    }
  }

  lemma {:induction false} SplitCons(c: char, s: string)
    ensures Split([c] + s) == Grow(c, Split(s))
  {
    assert ([c] + s)[1..] == s;
  }

  lemma {:induction false} GrowNewlineAppend(lines: seq<string>, b: string)
    requires lines != []
    ensures Grow('\n', Init(lines) + Split(Last(lines) + b))
         == Init(Grow('\n', lines)) + Split(Last(Grow('\n', lines)) + b)
  {
    var rest := Split(Last(lines) + b);
    assert Init([""] + lines) == [""] + Init(lines);
    assert [""] + (Init(lines) + rest) == ([""] + Init(lines)) + rest;
  }

  lemma {:induction false} GrowOneAppend(c: char, line: string, b: string)
    requires c != '\n'
    ensures Grow(c, Split(line + b)) == Split(([c] + line) + b)
  {
    assert ([c] + line) + b == [c] + (line + b);
    SplitCons(c, line + b);
  }

  lemma {:induction false} GrowManyAppend(c: char, lines: seq<string>, rest: seq<string>)
    requires c != '\n' && |lines| > 1
    ensures Grow(c, Init(lines) + rest) == Init(Grow(c, lines)) + rest
    ensures Last(Grow(c, lines)) == Last(lines)
  {
    assert Init(Grow(c, lines)) == [[c] + lines[0]] + Init(lines)[1..];
    assert (Init(lines) + rest)[1..] == Init(lines)[1..] + rest;
  }

  lemma {:induction false} GrowAppend(c: char, lines: seq<string>, b: string)
    requires lines != []
    ensures Grow(c, Init(lines) + Split(Last(lines) + b))
         == Init(Grow(c, lines)) + Split(Last(Grow(c, lines)) + b)
  {
    if c == '\n' {
      GrowNewlineAppend(lines, b);
    } else if |lines| == 1 {
      GrowOneAppend(c, lines[0], b);
      assert Init(lines) + Split(Last(lines) + b) == Split(Last(lines) + b);
      assert Init(Grow(c, lines)) == [];
      assert [] + Split(([c] + lines[0]) + b) == Split(([c] + lines[0]) + b);
    } else {
      GrowManyAppend(c, lines, Split(Last(lines) + b));
    }
  }

  /** The incremental step: the unfinished last piece of what was read so far
      continues with what comes next; the finished pieces never change. */
  lemma {:induction false} SplitAppend(a: string, b: string)
    ensures Split(a + b) == Init(Split(a)) + Split(Last(Split(a)) + b)
  {
    if a == "" {
      assert a + b == b;
      assert Init([""]) == [] && Last([""]) + b == b;
    } else {
      SplitAppend(a[1..], b);
      assert a + b == [a[0]] + (a[1..] + b);
      SplitCons(a[0], a[1..] + b);
      GrowAppend(a[0], Split(a[1..]), b);
    }
  }

  lemma {:induction false} SplitNoNewline(s: string)
    requires '\n' !in s
    ensures Split(s) == [s]
  {
    if s != "" {
      SplitNoNewline(s[1..]);
      assert s == [s[0]] + s[1..];
    }
  }

  lemma {:induction false} SplitLine(line: string, rest: string)
    requires '\n' !in line
    ensures Split(line + "\n" + rest) == [line] + Split(rest)
  {
    assert line + "\n" + rest == line + ("\n" + rest);
    LineThenTail(line, rest);
  }

  lemma {:induction false} LineThenTail(line: string, rest: string)
    requires '\n' !in line
    ensures Split(line + ("\n" + rest)) == [line] + Split(rest)
  {
    var tail := "\n" + rest;
    if line == "" {
      assert line + tail == ['\n'] + rest;
      SplitCons('\n', rest);
    } else {
      LineThenTail(line[1..], rest);
      assert line + tail == [line[0]] + (line[1..] + tail);
      SplitCons(line[0], line[1..] + tail);
      assert line == [line[0]] + line[1..];
    }
  }

  lemma {:induction false} SplitNewline(line: string)
    requires '\n' !in line
    ensures Split(line + "\n") == [line, ""]
  {
    LineThenTail(line, "");
    assert "\n" + "" == "\n";
  }
}
