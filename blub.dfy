/** The Blub line parser and the line-numbered program store (blub.py). */
module Blub {
  import opened Wrappers

  /** One decoded source line. `instruction` is the mnemonic, or just "b" for a branch,
      whose condition suffix is kept in `condition`. */
  datatype Instruction = Instruction(labelName: string, instruction: string, condition: string,
                                     op1: string, op2: string, op3: string)

  /** The IndexError a line with too few tokens raises while it is parsed. */
  datatype ParseError = MalformedLine

  /** The KeyError a missing dictionary key raises in the store. */
  datatype StoreError = KeyError

  // ---------------------------------------------------------------------------
  // Characters and strings
  // ---------------------------------------------------------------------------

  /** Python's whitespace, as `str.strip()` and `\s` see it: tab to carriage return, the
      four separators 0x1C-0x1F, space, NEL, no-break space and the Unicode spaces. */
  predicate IsSpace(c: char) {
    || c == ' ' || '\t' <= c <= '\r' || '\U{1C}' <= c <= '\U{1F}'
    || c == '\U{85}' || c == '\U{A0}' || c == '\U{1680}' || '\U{2000}' <= c <= '\U{200A}'
    || c == '\U{2028}' || c == '\U{2029}' || c == '\U{202F}' || c == '\U{205F}' || c == '\U{3000}'
  }

  /** The characters the operand clean-up deletes: whitespace and commas. */
  predicate IsSeparator(c: char) {
    IsSpace(c) || c == ','
  }

  /** No leading and no trailing whitespace. */
  predicate Trimmed(s: string) {
    s == "" || (!IsSpace(s[0]) && !IsSpace(s[|s| - 1]))
  }

  /** Pieces glued back together with `sep` between neighbours. */
  function Join(parts: seq<string>, sep: char): string {
    if |parts| == 0 then ""
    else if |parts| == 1 then parts[0]
    else parts[0] + [sep] + Join(parts[1..], sep)
  }

  /** `s.split(sep)`: the maximal `sep`-free pieces, including empty ones. */
  function Split(s: string, sep: char): (parts: seq<string>)
    ensures |parts| >= 1
    ensures forall i :: 0 <= i < |parts| ==> sep !in parts[i]
    decreases |s|
  {
    if |s| == 0 then [""]
    else
      var rest := Split(s[1..], sep);
      if s[0] == sep then [""] + rest
      else [[s[0]] + rest[0]] + rest[1..]
  }

  /** Gluing the pieces back together with the separator gives the original text. */
  lemma {:induction false} SplitJoin(s: string, sep: char)
    ensures Join(Split(s, sep), sep) == s
    decreases |s|
  {
    if |s| > 0 {
      var rest := Split(s[1..], sep);
      SplitJoin(s[1..], sep);
      if s[0] == sep {
        assert ([""] + rest)[1..] == rest;
      } else {
        var parts := [[s[0]] + rest[0]] + rest[1..];
        assert parts[1..] == rest[1..];
        assert s == [s[0]] + s[1..];
      }
    }
  }

  lemma {:induction false} SplitNoSep(a: string, sep: char)
    requires sep !in a
    ensures Split(a, sep) == [a]
    decreases |a|
  {
    if |a| > 0 {
      SplitNoSep(a[1..], sep);
      assert [a[0]] + a[1..] == a;
    }
  }

  /** Splitting around one separator splits each side on its own. */
  lemma {:induction false} SplitAppend(a: string, b: string, sep: char)
    ensures Split(a + [sep] + b, sep) == Split(a, sep) + Split(b, sep)
    decreases |a|
  {
    var s := a + [sep] + b;
    if |a| == 0 {
      assert s[1..] == b;
    } else {
      assert s[0] == a[0] && s[1..] == a[1..] + [sep] + b;
      SplitAppend(a[1..], b, sep);
      var left := Split(a[1..], sep);
      var rest := Split(s[1..], sep);
      assert rest == left + Split(b, sep);
      if a[0] != sep {
        assert rest[0] == left[0] && rest[1..] == left[1..] + Split(b, sep);
      }
    }
  }

  /** The first piece ends at the first separator; the rest is split on its own. */
  lemma {:induction false} SplitAtFirstSep(a: string, b: string, sep: char)
    requires sep !in a
    ensures Split(a + [sep] + b, sep) == [a] + Split(b, sep)
    decreases |a|
  {
    var s := a + [sep] + b;
    if |a| == 0 {
      assert s[1..] == b;
    } else {
      assert s[1..] == a[1..] + [sep] + b;
      SplitAtFirstSep(a[1..], b, sep);
      assert [a[0]] + a[1..] == a;
    }
  }

  /** Drops the empty strings, keeping the order of the others. */
  function NonEmpty(parts: seq<string>): (r: seq<string>)
    ensures |r| <= |parts|
    ensures forall i :: 0 <= i < |r| ==> r[i] != "" && r[i] in parts
    ensures (forall i :: 0 <= i < |parts| ==> parts[i] != "") ==> r == parts
  {
    if |parts| == 0 then []
    else (if parts[0] == "" then [] else [parts[0]]) + NonEmpty(parts[1..])
  }

  lemma {:induction false} NonEmptyAppend(a: seq<string>, b: seq<string>)
    ensures NonEmpty(a + b) == NonEmpty(a) + NonEmpty(b)
    decreases |a|
  {
    if |a| > 0 {
      var head := if a[0] == "" then [] else [a[0]];
      assert (a + b)[0] == a[0] && (a + b)[1..] == a[1..] + b;
      NonEmptyAppend(a[1..], b);
      calc {
        NonEmpty(a + b);
        head + NonEmpty(a[1..] + b);
        head + (NonEmpty(a[1..]) + NonEmpty(b));
        (head + NonEmpty(a[1..])) + NonEmpty(b);
      }
    } else {
      assert a + b == b;
    }
  }

  /** `[x for x in s.split(" ") if x != '']`. */
  function Tokens(s: string): (toks: seq<string>)
    ensures forall i :: 0 <= i < |toks| ==> toks[i] != "" && ' ' !in toks[i]
  {
    NonEmpty(Split(s, ' '))
  }

  lemma {:induction false} TokensNoSpace(a: string)
    requires ' ' !in a
    ensures Tokens(a) == if a == "" then [] else [a]
  {
    SplitNoSep(a, ' ');
  }

  /** Text up to the first space is the first token (when non-empty); the rest tokenizes on its own. */
  lemma {:induction false} TokensAtFirstSpace(a: string, b: string)
    requires ' ' !in a
    ensures Tokens(a + [' '] + b) == (if a == "" then [] else [a]) + Tokens(b)
  {
    SplitAtFirstSep(a, b, ' ');
    NonEmptyAppend([a], Split(b, ' '));
  }

  lemma {:induction false} TokensAppend(a: string, b: string)
    ensures Tokens(a + [' '] + b) == Tokens(a) + Tokens(b)
  {
    SplitAppend(a, b, ' ');
    NonEmptyAppend(Split(a, ' '), Split(b, ' '));
  }

  /** Leading whitespace removed. */
  function TrimLeft(s: string): (r: string)
    ensures |r| <= |s| && r == s[|s| - |r|..]
    ensures forall i :: 0 <= i < |s| - |r| ==> IsSpace(s[i])
    ensures r != "" ==> !IsSpace(r[0])
  {
    if s != "" && IsSpace(s[0]) then TrimLeft(s[1..]) else s
  }

  /** Trailing whitespace removed. */
  function TrimRight(s: string): (r: string)
    ensures |r| <= |s| && r == s[..|r|]
    ensures forall i :: |r| <= i < |s| ==> IsSpace(s[i])
    ensures r != "" ==> !IsSpace(r[|r| - 1])
  {
    if s != "" && IsSpace(s[|s| - 1]) then TrimRight(s[..|s| - 1]) else s
  }

  /** `s.strip()`: the longest middle part with whitespace at neither end. */
  function Strip(s: string): (r: string)
    ensures Trimmed(r)
    ensures exists a, b :: 0 <= a <= b <= |s| && r == s[a..b] && Outside(s, a, b)
    ensures Trimmed(s) ==> r == s
  {
    var l := TrimLeft(s);
    var r := TrimRight(l);
    var a, b := |s| - |l|, |s| - |l| + |r|;
    assert r == s[a..b];
    assert Outside(s, a, b);
    assert r != "" ==> r[0] == l[0];
    r
  }

  /** Everything of s outside s[a..b] is whitespace. */
  predicate Outside(s: string, a: int, b: int)
    requires 0 <= a <= b <= |s|
  {
    forall i :: 0 <= i < |s| && (i < a || b <= i) ==> IsSpace(s[i])
  }

  /** `re.sub('[\s,]', '', s)`: every whitespace character and comma deleted. */
  function DropSeparators(s: string): (r: string)
    ensures |r| <= |s|
    ensures forall i :: 0 <= i < |r| ==> !IsSeparator(r[i])
    ensures (forall i :: 0 <= i < |s| ==> !IsSeparator(s[i])) ==> r == s
  {
    if s == "" then ""
    else
      assert s == [s[0]] + s[1..];
      (if IsSeparator(s[0]) then "" else [s[0]]) + DropSeparators(s[1..])
  }

  /** One character is deleted iff it is a separator; with `DropSeparatorsAppend` this fixes
      the result of every string. */
  lemma DropSeparatorsChar(c: char)
    ensures DropSeparators([c]) == if IsSeparator(c) then "" else [c]
  {
    assert [c][1..] == "";
  }

  /** Deletion works character by character, so it distributes over concatenation. */
  lemma {:induction false} DropSeparatorsAppend(a: string, b: string)
    ensures DropSeparators(a + b) == DropSeparators(a) + DropSeparators(b)
    decreases |a|
  {
    if a == "" {
      assert a + b == b;
    } else {
      assert (a + b)[1..] == a[1..] + b;
      DropSeparatorsAppend(a[1..], b);
    }
  }

  // ---------------------------------------------------------------------------
  // Parsing one line
  // ---------------------------------------------------------------------------

  /** The instruction decoded from the text after the label (blub.py:104-128). */
  function ParseFields(labelName: string, body: string): (r: Result<Instruction, ParseError>)
    ensures r.Ok? <==> |Tokens(body)| >= 2 && Strip(Tokens(body)[0]) != ""
    ensures r.Ok? ==> r.value.labelName == labelName
    ensures r.Ok? ==>
      var mnemonic := Strip(Tokens(body)[0]);
      && r.value.instruction + r.value.condition == mnemonic
      && (r.value.instruction == "b" <==> mnemonic[0] == 'b')
      && (r.value.instruction != "b" ==> r.value.condition == "")
    ensures r.Ok? ==>
      var toks := Tokens(body);
      && r.value.op1 == DropSeparators(toks[1])
      && r.value.op2 == (if |toks| > 2 then DropSeparators(toks[2]) else "")
      && r.value.op3 == (if |toks| > 3 then DropSeparators(toks[3]) else "")
  {
    var toks := Tokens(body);
    if |toks| == 0 then Err(MalformedLine)
    else
      var mnemonic := Strip(toks[0]);
      if mnemonic == "" || |toks| < 2 then Err(MalformedLine)
      else
        var (instruction, condition) := SplitMnemonic(mnemonic);
        Ok(Instruction(labelName, instruction, condition,
                       DropSeparators(toks[1]),
                       if |toks| > 2 then DropSeparators(toks[2]) else "",
                       if |toks| > 3 then DropSeparators(toks[3]) else ""))
  }

  /** A mnemonic starting with `b` is the branch `b` followed by its condition; any other
      is the instruction itself, with no condition (blub.py:119-122). */
  function SplitMnemonic(mnemonic: string): (r: (string, string))
    requires mnemonic != ""
    ensures r.0 + r.1 == mnemonic
    ensures r.0 == "b" <==> mnemonic[0] == 'b'
    ensures r.0 != "b" ==> r.1 == ""
  {
    assert mnemonic == [mnemonic[0]] + mnemonic[1..];
    if mnemonic[0] == 'b' then ("b", mnemonic[1..]) else (mnemonic, "")
  }

  /** One source line decoded (blub.py:101-128). With a colon, the label is the text
      before the first colon, stripped, and the fields come from the text between the
      first and the second colon; without one, the label is empty. */
  function ParseLine(line: string): (r: Result<Instruction, ParseError>)
    ensures r.Ok? ==> ':' !in r.value.labelName && Trimmed(r.value.labelName)
    ensures r.Ok? ==> r.value.instruction != "" && r.value.op1 == DropSeparators(r.value.op1)
  {
    var parts := Split(line, ':');
    var fields := if |parts| > 1 then ParseFields(Strip(parts[0]), parts[1]) else ParseFields("", parts[0]);
    if fields.Ok? then
      assert fields.value.instruction + fields.value.condition != "";
      fields
    else fields
  }

  lemma ParseLineWithoutColon(line: string)
    requires ':' !in line
    ensures ParseLine(line) == ParseFields("", line)
  {
    SplitNoSep(line, ':');
  }

  /** Text after a second colon plays no part; the label is the text before the first. */
  lemma ParseLineWithLabel(before: string, body: string, rest: string)
    requires ':' !in before && ':' !in body
    requires rest == "" || rest[0] == ':'
    ensures ParseLine(before + [':'] + body + rest) == ParseFields(Strip(before), body)
  {
    var line := before + [':'] + body + rest;
    assert line == before + [':'] + (body + rest);
    SplitAtFirstSep(before, body + rest, ':');
    if rest == "" {
      assert body + rest == body;
      SplitNoSep(body, ':');
    } else {
      assert body + rest == body + [':'] + rest[1..];
      SplitAtFirstSep(body, rest[1..], ':');
    }
  }

  /** Tokens after the fourth are ignored. */
  lemma ExtraTokensIgnored(labelName: string, body: string, extra: string)
    requires |Tokens(body)| >= 4
    ensures ParseFields(labelName, body + [' '] + extra) == ParseFields(labelName, body)
  {
    TokensAppend(body, extra);
    var t := Tokens(body + [' '] + extra);
    assert t[..4] == Tokens(body)[..4];
  }

  // ---------------------------------------------------------------------------
  // Rendering (Instruction.__str__) and the round trip
  // ---------------------------------------------------------------------------

  /** `str(inst)` (blub.py:52-60). Of a printable instruction, the rendering has a colon
      exactly when the instruction is labelled, which is what lets the parser find the label. */
  function Render(inst: Instruction): (r: string)
    ensures Printable(inst) ==> (':' in r <==> inst.labelName != "")
  {
    var head := if inst.labelName != "" then inst.labelName + ": " else "    ";
    var rest := inst.instruction + inst.condition + " " + inst.op1
                + (if inst.op2 != "" then ", " + inst.op2 else "")
                + (if inst.op3 != "" then ", " + inst.op3 else "");
    assert Printable(inst) ==> ':' !in rest by {
      if Printable(inst) {
        PlainNoColon(inst.instruction);
        PlainNoColon(inst.condition);
        PlainNoColon(inst.op1);
        PlainNoColon(inst.op2);
        PlainNoColon(inst.op3);
      }
    }
    assert inst.labelName != "" ==> head[|inst.labelName|] == ':';
    head + rest
  }

  /** A plain field has no colon. */
  lemma PlainNoColon(s: string)
    requires Plain(s)
    ensures ':' !in s
  {
  }

  /** A field with no whitespace, comma or colon. */
  predicate Plain(s: string) {
    forall i :: 0 <= i < |s| ==> !IsSeparator(s[i]) && s[i] != ':'
  }

  /** The instructions that `str` renders faithfully. */
  predicate Printable(inst: Instruction) {
    && ':' !in inst.labelName && Trimmed(inst.labelName)
    && inst.instruction != ""
    && (inst.instruction[0] == 'b' ==> inst.instruction == "b")
    && (inst.instruction != "b" ==> inst.condition == "")
    && inst.op1 != ""
    && (inst.op2 == "" ==> inst.op3 == "")
    && Plain(inst.instruction) && Plain(inst.condition)
    && Plain(inst.op1) && Plain(inst.op2) && Plain(inst.op3)
  }

  /** The words of the rendering after the label: mnemonic, then the operands with
      their separating commas. */
  function RenderedWords(inst: Instruction): seq<string> {
    if inst.op2 == "" then [inst.instruction + inst.condition, inst.op1]
    else if inst.op3 == "" then [inst.instruction + inst.condition, inst.op1 + ",", inst.op2]
    else [inst.instruction + inst.condition, inst.op1 + ",", inst.op2 + ",", inst.op3]
  }

  /** Words without spaces, joined by single spaces, tokenize back into the words. */
  lemma {:induction false} TokensOfWords(words: seq<string>)
    requires forall i :: 0 <= i < |words| ==> words[i] != "" && ' ' !in words[i]
    ensures Tokens(Join(words, ' ')) == words
    decreases |words|
  {
    if |words| == 0 {
      TokensNoSpace("");
    } else if |words| == 1 {
      TokensNoSpace(words[0]);
    } else {
      TokensOfWords(words[1..]);
      TokensAtFirstSpace(words[0], Join(words[1..], ' '));
      assert [words[0]] + words[1..] == words;
    }
  }

  /** The text that precedes the mnemonic in a rendering. */
  function RenderedHead(inst: Instruction): string {
    if inst.labelName != "" then inst.labelName + ": " else "    "
  }

  /** The rendering is its prefix followed by the words joined by spaces. */
  lemma RenderedBodyWords(inst: Instruction)
    requires inst.op2 == "" ==> inst.op3 == ""
    ensures |RenderedWords(inst)| >= 2
    ensures RenderedHead(inst) + Join(RenderedWords(inst), ' ') == Render(inst)
  {
    var m := inst.instruction + inst.condition;
    var o1, o2, o3 := inst.op1, inst.op2, inst.op3;
    var tail2 := if o2 != "" then ", " + o2 else "";
    var tail3 := if o3 != "" then ", " + o3 else "";
    RenderRegrouped(inst);
    if o2 == "" {
      JoinTwo(m, o1);
      assert tail2 + tail3 == "";
    } else if o3 == "" {
      JoinThree(m, o1 + ",", o2);
      CommaSpace(o1, o2, "");
    } else {
      JoinFour(m, o1 + ",", o2 + ",", o3);
      CommaSpace(o2, o3, "");
      CommaSpace(o1, o2 + ",", " " + o3);
    }
  }

  /** `str` with the text after the prefix grouped together. */
  lemma RenderRegrouped(inst: Instruction)
    ensures Render(inst) == RenderedHead(inst) + (inst.instruction + inst.condition + " " + (inst.op1
      + ((if inst.op2 != "" then ", " + inst.op2 else "") + (if inst.op3 != "" then ", " + inst.op3 else ""))))
  {
  }

  /** `a, b` followed by `c` is `a,` and `b` joined by a space, followed by `c`. */
  lemma CommaSpace(a: string, b: string, c: string)
    ensures a + (", " + b + c) == a + "," + " " + (b + c)
  {
  }

  lemma JoinTwo(a: string, b: string)
    ensures Join([a, b], ' ') == a + " " + b
  {
    assert [a, b][1..] == [b];
  }

  lemma JoinThree(a: string, b: string, c: string)
    ensures Join([a, b, c], ' ') == a + " " + (b + " " + c)
  {
    assert [a, b, c][1..] == [b, c];
    JoinTwo(b, c);
  }

  lemma JoinFour(a: string, b: string, c: string, d: string)
    ensures Join([a, b, c, d], ' ') == a + " " + (b + " " + (c + " " + d))
  {
    assert [a, b, c, d][1..] == [b, c, d];
    JoinThree(b, c, d);
  }

  lemma DropSeparatorsPlain(s: string)
    requires Plain(s)
    ensures DropSeparators(s) == s
  {
  }

  lemma DropTrailingComma(s: string)
    requires Plain(s)
    ensures DropSeparators(s + ",") == s
  {
    DropSeparatorsAppend(s, ",");
    assert DropSeparators(",") == "";
  }

  /** The rendered words of a printable instruction are non-empty and free of spaces and colons. */
  lemma WordsArePlain(inst: Instruction)
    requires Printable(inst)
    ensures forall i :: 0 <= i < |RenderedWords(inst)| ==>
      var word := RenderedWords(inst)[i]; word != "" && ' ' !in word && ':' !in word
  {
    var m := inst.instruction + inst.condition;
    assert ' ' !in m && ':' !in m;
    var a := inst.op1 + (if inst.op2 != "" then "," else "");
    assert ' ' !in a && ':' !in a;
    var b := inst.op2 + (if inst.op3 != "" then "," else "");
    assert ' ' !in b && ':' !in b;
  }

  /** The text the parser tokenizes in a rendering, and its tokens. */
  lemma {:induction false} RenderedTokens(inst: Instruction) returns (body: string)
    requires Printable(inst)
    ensures ParseLine(Render(inst)) == ParseFields(inst.labelName, body)
    ensures Tokens(body) == RenderedWords(inst)
  {
    var w := RenderedWords(inst);
    var joined := Join(w, ' ');
    RenderedBodyWords(inst);
    WordsArePlain(inst);
    TokensOfWords(w);
    JoinAvoids(w, ' ', ':');
    assert RenderedHead(inst) + joined == Render(inst);
    if inst.labelName != "" {
      body := [' '] + joined;
      LabelledRendering(inst.labelName, joined);
      ParseLineWithLabel(inst.labelName, body, "");
      TokensAtFirstSpace("", joined);
    } else {
      body := "    " + joined;
      IndentedRendering(joined);
      ParseLineWithoutColon(body);
    }
  }

  lemma LabelledRendering(labelName: string, joined: string)
    ensures labelName + ": " + joined == labelName + [':'] + ([' '] + joined) + ""
    ensures "" + [' '] + joined == [' '] + joined
  {
  }

  lemma {:induction false} TokensLeadingSpace(x: string)
    ensures Tokens([' '] + x) == Tokens(x)
  {
    TokensAtFirstSpace("", x);
    assert "" + [' '] + x == [' '] + x;
  }

  lemma IndentedRendering(joined: string)
    requires ':' !in joined
    ensures ':' !in "    " + joined
    ensures Tokens("    " + joined) == Tokens(joined)
  {
    var b1 := [' '] + joined;
    var b2 := [' '] + b1;
    var b3 := [' '] + b2;
    assert "    " + joined == [' '] + b3;
    TokensLeadingSpace(b3);
    TokensLeadingSpace(b2);
    TokensLeadingSpace(b1);
    TokensLeadingSpace(joined);
  }

  /** The fields decoded from the rendered words are the instruction's own. */
  lemma {:induction false} FieldsFromWords(inst: Instruction, body: string)
    requires Printable(inst) && Tokens(body) == RenderedWords(inst)
    ensures ParseFields(inst.labelName, body) == Ok(inst)
  {
    var toks := Tokens(body);
    var m := inst.instruction + inst.condition;
    assert toks[0] == m && |toks| >= 2;
    MnemonicRoundTrip(inst);
    assert DropSeparators(toks[1]) == inst.op1
        && (if |toks| > 2 then DropSeparators(toks[2]) else "") == inst.op2
        && (if |toks| > 3 then DropSeparators(toks[3]) else "") == inst.op3 by {
      OperandsRoundTrip(inst);
    }
    assert Strip(toks[0]) == m != "";
    var r := ParseFields(inst.labelName, body);
    assert r.Ok?;
    assert r.value.instruction + r.value.condition == m;
    assert r.value == inst;
  }

  /** The operand words of a rendering decode to the operands. */
  lemma OperandsRoundTrip(inst: Instruction)
    requires Printable(inst)
    ensures var w := RenderedWords(inst);
      && DropSeparators(w[1]) == inst.op1
      && (if |w| > 2 then DropSeparators(w[2]) else "") == inst.op2
      && (if |w| > 3 then DropSeparators(w[3]) else "") == inst.op3
  {
    if inst.op2 == "" {
      DropSeparatorsPlain(inst.op1);
    } else if inst.op3 == "" {
      DropTrailingComma(inst.op1);
      DropSeparatorsPlain(inst.op2);
    } else {
      DropTrailingComma(inst.op1);
      DropTrailingComma(inst.op2);
      DropSeparatorsPlain(inst.op3);
    }
  }

  /** The mnemonic of a printable instruction is already stripped and splits back into
      its instruction and condition. */
  lemma MnemonicRoundTrip(inst: Instruction)
    requires Printable(inst)
    ensures Strip(inst.instruction + inst.condition) == inst.instruction + inst.condition
    ensures SplitMnemonic(inst.instruction + inst.condition) == (inst.instruction, inst.condition)
  {
    var m := inst.instruction + inst.condition;
    assert Trimmed(m) by {
      assert !IsSpace(m[0]) && !IsSpace(m[|m| - 1]);
    }
    assert m[0] == inst.instruction[0];
    if inst.instruction == "b" {
      assert m[1..] == inst.condition;
    }
  }

  /** Parsing the rendering of a printable instruction gives the instruction back. */
  lemma {:induction false} RenderRoundTrip(inst: Instruction)
    requires Printable(inst)
    ensures ParseLine(Render(inst)) == Ok(inst)
  {
    var body := RenderedTokens(inst);
    FieldsFromWords(inst, body);
  }

  /** Joining pieces that avoid `c` with a separator other than `c` avoids `c`. */
  lemma {:induction false} JoinAvoids(parts: seq<string>, sep: char, c: char)
    requires sep != c && forall i :: 0 <= i < |parts| ==> c !in parts[i]
    ensures c !in Join(parts, sep)
    decreases |parts|
  {
    if |parts| > 1 {
      JoinAvoids(parts[1..], sep, c);
    }
  }

  // ---------------------------------------------------------------------------
  // The program store: line numbers 1..n, and the label index
  // ---------------------------------------------------------------------------

  /** `keys` is exactly the line numbers 1..n. */
  ghost predicate IsKeyRange(keys: set<int>, n: int) {
    forall k :: k in keys <==> 1 <= k <= n
  }

  lemma ExtendKeyRange(program: map<int, Instruction>, n: int, inst: Instruction)
    requires 0 <= n && IsKeyRange(program.Keys, n)
    ensures IsKeyRange(program[n + 1 := inst].Keys, n + 1)
  {
    var next := program[n + 1 := inst];
    assert forall k :: k in next.Keys ==> k in program.Keys || k == n + 1;
  }

  lemma {:induction false} KeyRangeSize(keys: set<int>, n: nat)
    requires IsKeyRange(keys, n)
    ensures |keys| == n
  {
    if n > 0 {
      assert n in keys;
      KeyRangeSize(keys - {n}, n - 1);
    } else {
      assert keys == {} by {
        forall k | k in keys ensures false { }
      }
    }
  }

  /** The entries 1..n of a line-numbered map, in order. */
  function LinesOf(program: map<int, Instruction>, n: nat): (lines: seq<Instruction>)
    requires forall k :: 1 <= k <= n ==> k in program
    ensures |lines| == n
  {
    seq(n, i requires 0 <= i < n => program[i + 1])
  }

  /** Entry i of `LinesOf(program, n)` is line i+1. */
  lemma {:induction false} LinesOfIndex(program: map<int, Instruction>, n: nat)
    requires forall k :: 1 <= k <= n ==> k in program
    ensures forall i :: 0 <= i < n ==> LinesOf(program, n)[i] == program[i + 1]
  {
  }

  /** Every index entry names an existing line that carries that (non-empty) label. */
  ghost predicate Consistent(lines: seq<Instruction>, labels: map<string, int>) {
    forall name :: name in labels ==>
      name != "" && 1 <= labels[name] <= |lines| && lines[labels[name] - 1].labelName == name
  }

  /** Every label some line carries is in the index. */
  ghost predicate Complete(lines: seq<Instruction>, labels: map<string, int>) {
    forall i :: 0 <= i < |lines| && lines[i].labelName != "" ==> lines[i].labelName in labels
  }

  /** `{y.label: x for (x, y) in program.items() if y.label}` over lines 1..n in order
      (blub.py:136): each label maps to the last line that carries it. */
  function LabelIndex(lines: seq<Instruction>): (index: map<string, int>)
    ensures forall name :: name in index ==> name != "" && 1 <= index[name] <= |lines|
  {
    if |lines| == 0 then map[]
    else
      var n := |lines|;
      var earlier := LabelIndex(lines[..n - 1]);
      if lines[n - 1].labelName != "" then earlier[lines[n - 1].labelName := n] else earlier
  }

  /** Every entry of the index names a line with that label. */
  lemma {:induction false} LabelIndexSound(lines: seq<Instruction>)
    ensures Consistent(lines, LabelIndex(lines))
  {
    if |lines| > 0 {
      var n := |lines|;
      var prefix := lines[..n - 1];
      var earlier := LabelIndex(prefix);
      var index := LabelIndex(lines);
      LabelIndexSound(prefix);
      forall name | name in index
        ensures lines[index[name] - 1].labelName == name
      {
        if name != lines[n - 1].labelName {
          assert index[name] == earlier[name];
          assert prefix[earlier[name] - 1] == lines[earlier[name] - 1];
        }
      }
    }
  }

  /** Each label maps to the last line that carries it. */
  lemma {:induction false} LabelIndexLast(lines: seq<Instruction>)
    ensures forall name, j :: name in LabelIndex(lines) && LabelIndex(lines)[name] <= j < |lines| ==> lines[j].labelName != name
  {
    if |lines| > 0 {
      var n := |lines|;
      var prefix := lines[..n - 1];
      var earlier := LabelIndex(prefix);
      var index := LabelIndex(lines);
      LabelIndexLast(prefix);
      forall name, j | name in index && index[name] <= j < n
        ensures lines[j].labelName != name
      {
        if name != lines[n - 1].labelName {
          assert index[name] == earlier[name];
          if j < n - 1 {
            assert prefix[j] == lines[j];
          }
        }
      }
    }
  }

  /** Every label some line carries is in the index. */
  lemma {:induction false} LabelIndexComplete(lines: seq<Instruction>)
    ensures Complete(lines, LabelIndex(lines))
  {
    if |lines| > 0 {
      var n := |lines|;
      var prefix := lines[..n - 1];
      LabelIndexComplete(prefix);
      assert forall i :: 0 <= i < n - 1 ==> prefix[i] == lines[i];
    }
  }

  /** The lines after `inst` is put at `lineNum` (blub.py:198-208, 219-221): in range, the
      lines from `lineNum` on move one down; beyond the end, it is appended. */
  function InsertLine(lines: seq<Instruction>, lineNum: int, inst: Instruction): (r: seq<Instruction>)
    requires 1 <= lineNum
    ensures |r| == |lines| + 1
    ensures lineNum <= |lines| ==>
      && r[lineNum - 1] == inst
      && (forall i :: 0 <= i < lineNum - 1 ==> r[i] == lines[i])
      && (forall i :: lineNum - 1 <= i < |lines| ==> r[i + 1] == lines[i])
    ensures lineNum > |lines| ==> r == lines + [inst]
  {
    if lineNum <= |lines| then lines[..lineNum - 1] + [inst] + lines[lineNum - 1..] else lines + [inst]
  }

  /** `{x: (y + 1 if y >= lineNum else y) ...}` (blub.py:211): entries at or after
      `lineNum` move one line down. */
  function ShiftLabels(labels: map<string, int>, lineNum: int): (r: map<string, int>)
    ensures r.Keys == labels.Keys
    ensures forall name :: name in labels ==> r[name] == if labels[name] >= lineNum then labels[name] + 1 else labels[name]
  {
    map name | name in labels :: if labels[name] >= lineNum then labels[name] + 1 else labels[name]
  }

  /** The index after an insertion into `n` lines (blub.py:211-215, 224-225): the new
      line's label names its position, the entries of the lines that moved down grow
      by one, and no other name appears. */
  function RelabelAfterInsert(labels: map<string, int>, lineNum: int, n: int, inst: Instruction): (r: map<string, int>)
    ensures inst.labelName != "" ==> inst.labelName in r && r[inst.labelName] == if lineNum <= n then lineNum else n + 1
    ensures forall name :: name in labels && name != inst.labelName ==>
              name in r && r[name] == if lineNum <= n && labels[name] >= lineNum then labels[name] + 1 else labels[name]
    ensures forall name :: name in r ==> name in labels || (name == inst.labelName && name != "")
  {
    var shifted := if lineNum <= n then ShiftLabels(labels, lineNum) else labels;
    var position := if lineNum <= n then lineNum else n + 1;
    if inst.labelName != "" then shifted[inst.labelName := position] else shifted
  }

  /** Insertion keeps every index entry pointing at a line with that label. */
  lemma InsertKeepsConsistent(lines: seq<Instruction>, labels: map<string, int>, lineNum: int, inst: Instruction)
    requires 1 <= lineNum
    requires Consistent(lines, labels)
    ensures Consistent(InsertLine(lines, lineNum, inst), RelabelAfterInsert(labels, lineNum, |lines|, inst))
  {
    var r := InsertLine(lines, lineNum, inst);
    var index := RelabelAfterInsert(labels, lineNum, |lines|, inst);
    var within := lineNum <= |lines|;
    var shifted := if within then ShiftLabels(labels, lineNum) else labels;
    var position := if within then lineNum else |lines| + 1;
    assert r[position - 1] == inst;
    forall name | name in index
      ensures name != "" && 1 <= index[name] <= |r| && r[index[name] - 1].labelName == name
    {
      if name != inst.labelName || inst.labelName == "" {
        var k := labels[name];
        assert index[name] == shifted[name];
        if within && k >= lineNum {
          assert shifted[name] == k + 1;
          assert r[k] == lines[k - 1];
        } else {
          assert shifted[name] == k;
          assert r[k - 1] == lines[k - 1];
        }
      }
    }
  }

  /** Insertion keeps every label indexed. */
  lemma InsertKeepsComplete(lines: seq<Instruction>, labels: map<string, int>, lineNum: int, inst: Instruction)
    requires 1 <= lineNum
    requires Complete(lines, labels)
    ensures Complete(InsertLine(lines, lineNum, inst), RelabelAfterInsert(labels, lineNum, |lines|, inst))
  {
    var r := InsertLine(lines, lineNum, inst);
    var index := RelabelAfterInsert(labels, lineNum, |lines|, inst);
    forall i | 0 <= i < |r| && r[i].labelName != ""
      ensures r[i].labelName in index
    {
      if r[i].labelName != inst.labelName {
        if lineNum <= |lines| && i >= lineNum {
          assert r[i] == lines[i - 1];
        } else if lineNum <= |lines| && i < lineNum - 1 {
          assert r[i] == lines[i];
        } else if lineNum > |lines| {
          assert i < |lines| && r[i] == lines[i];
        }
      }
    }
  }

  /** Midway through the downward shift of `__setitem__` (blub.py:202-205): lines 1..n+1
      exist, those from `lineNum + n - num + 2` on hold their predecessor's old entry. */
  ghost predicate ShiftedDown(program: map<int, Instruction>, p0: map<int, Instruction>, lineNum: int, n: int, num: int) {
    && 1 <= n && lineNum <= n && lineNum <= num <= n + 1 && num <= lineNum + n
    && IsKeyRange(p0.Keys, n) && IsKeyRange(program.Keys, n + 1)
    && forall k {:trigger program[k]} :: 1 <= k <= n + 1 ==>
         program[k] == if k <= n && k <= lineNum + n - num + 1 then p0[k] else p0[k - 1]
  }

  /** The first pass of the loop, at `num == lineNum - 1`, copies line n to the new line n+1. */
  lemma ShiftFirst(p0: map<int, Instruction>, lineNum: int, n: int)
    requires 1 <= n && lineNum <= n && IsKeyRange(p0.Keys, n)
    ensures ShiftedDown(p0[n + 1 := p0[n]], p0, lineNum, n, lineNum)
  {
  }

  /** A later pass, at `num`, copies line `lineNum + n - num` one down. */
  lemma ShiftNext(program: map<int, Instruction>, p0: map<int, Instruction>, lineNum: int, n: int, num: int)
    requires lineNum <= num <= n && num < lineNum + n && IsKeyRange(p0.Keys, n)
    requires ShiftedDown(program, p0, lineNum, n, num)
    ensures ShiftedDown(program[lineNum + n - num + 1 := program[lineNum + n - num]], p0, lineNum, n, num + 1)
  {
    var t := lineNum + n - num + 1;
    var next := program[t := program[t - 1]];
    assert program[t - 1] == p0[t - 1];
    forall k | 1 <= k <= n + 1
      ensures next[k] == if k <= n && k <= t - 1 then p0[k] else p0[k - 1]
    {
      if k != t {
        assert next[k] == program[k];
      }
    }
    ExtendKeyRange(program, n + 1, program[t - 1]);
    assert next.Keys == program.Keys;
  }

  /** The line a pass of the loop reads, `(lineNum - 1) + len(program) - num`, computed from
      the store's current length: it is missing exactly when the store was empty, or when
      the shift has gone below line 1, which happens only for `lineNum < 1`. */
  lemma ShiftSource(program: map<int, Instruction>, p0: map<int, Instruction>, lineNum: int, n: nat, num: int)
    requires lineNum <= n && IsKeyRange(p0.Keys, n) && lineNum - 1 <= num <= n
    requires num == lineNum - 1 ==> program == p0
    requires num >= lineNum ==> ShiftedDown(program, p0, lineNum, n, num)
    ensures |program| == if num == lineNum - 1 then n else n + 1
    ensures (lineNum - 1) + |program| - num in program <==> if num == lineNum - 1 then n >= 1 else num < lineNum + n
  {
    if num == lineNum - 1 {
      KeyRangeSize(program.Keys, n);
    } else {
      KeyRangeSize(program.Keys, n + 1);
    }
  }

  /** One pass of the loop at `num` whose source line exists. */
  lemma ShiftStep(program: map<int, Instruction>, p0: map<int, Instruction>, lineNum: int, n: nat, num: int)
    requires lineNum <= n && IsKeyRange(p0.Keys, n) && lineNum - 1 <= num <= n
    requires num == lineNum - 1 ==> program == p0
    requires num >= lineNum ==> ShiftedDown(program, p0, lineNum, n, num)
    requires (lineNum - 1) + |program| - num in program
    ensures ShiftedDown(program[(lineNum - 1) + |program| - (num - 1) := program[(lineNum - 1) + |program| - num]],
                        p0, lineNum, n, num + 1)
  {
    ShiftSource(program, p0, lineNum, n, num);
    if num == lineNum - 1 {
      ShiftFirst(p0, lineNum, n);
    } else {
      ShiftNext(program, p0, lineNum, n, num);
    }
  }

  /** The lines with line `lineNum` written twice: what the shift of `__setitem__` leaves. */
  function Duplicated(lines: seq<Instruction>, lineNum: int): (r: seq<Instruction>)
    requires 1 <= lineNum <= |lines|
    ensures |r| == |lines| + 1 && r[lineNum - 1] == r[lineNum] == lines[lineNum - 1]
  {
    lines[..lineNum] + lines[lineNum - 1..]
  }

  /** Where the shift stops, normally after `num == n` or at a missing source line, the
      line `lineNum + n - num + 1` is duplicated. */
  lemma ShiftDone(program: map<int, Instruction>, p0: map<int, Instruction>, lineNum: int, n: int, num: int)
    requires ShiftedDown(program, p0, lineNum, n, num) && (num == n + 1 || num == lineNum + n)
    ensures 1 <= lineNum + n - num + 1 <= n
    ensures IsKeyRange(program.Keys, n + 1)
    ensures LinesOf(program, n + 1) == Duplicated(LinesOf(p0, n), lineNum + n - num + 1)
  {
    var before := LinesOf(p0, n);
    var after := LinesOf(program, n + 1);
    LinesOfIndex(p0, n);
    LinesOfIndex(program, n + 1);
    var expected := Duplicated(before, lineNum + n - num + 1);
    forall i | 0 <= i < n + 1
      ensures after[i] == expected[i]
    {
      assert after[i] == program[i + 1];
    }
  }

  /** Writing the new line over the first copy gives `InsertLine`. */
  lemma WriteShifted(program: map<int, Instruction>, before: seq<Instruction>, lineNum: int, inst: Instruction)
    requires 1 <= lineNum <= |before| && IsKeyRange(program.Keys, |before| + 1)
    requires LinesOf(program, |before| + 1) == Duplicated(before, lineNum)
    ensures IsKeyRange(program[lineNum := inst].Keys, |before| + 1)
    ensures LinesOf(program[lineNum := inst], |before| + 1) == InsertLine(before, lineNum, inst)
  {
    var n := |before|;
    assert program[lineNum := inst].Keys == program.Keys;
    LinesOfUpdate(program, n + 1, lineNum, inst);
    OverwriteDuplicate(before, lineNum, inst);
  }

  /** Overwriting one line of a store overwrites one entry of its lines. */
  lemma LinesOfUpdate(program: map<int, Instruction>, n: nat, k: int, inst: Instruction)
    requires forall j :: 1 <= j <= n ==> j in program
    requires 1 <= k <= n
    ensures LinesOf(program[k := inst], n) == LinesOf(program, n)[k - 1 := inst]
  {
    var after := LinesOf(program[k := inst], n);
    var expected := LinesOf(program, n)[k - 1 := inst];
    forall i | 0 <= i < n
      ensures after[i] == expected[i]
    {
      if i != k - 1 {
        assert after[i] == program[i + 1];
      }
    }
  }

  /** Overwriting the first copy of the duplicated line with `inst` is an insertion. */
  lemma OverwriteDuplicate(lines: seq<Instruction>, lineNum: int, inst: Instruction)
    requires 1 <= lineNum <= |lines|
    ensures Duplicated(lines, lineNum)[lineNum - 1 := inst] == InsertLine(lines, lineNum, inst)
  {
    var dup := Duplicated(lines, lineNum);
    var r := InsertLine(lines, lineNum, inst);
    forall i | 0 <= i < |lines| + 1
      ensures dup[lineNum - 1 := inst][i] == r[i]
    {
      if i < lineNum - 1 {
        assert dup[i] == lines[i];
      } else if i >= lineNum {
        assert dup[i] == lines[i - 1];
      }
    }
  }

  /** Appending beyond the end (blub.py:217-221). */
  lemma AppendKeepsRange(p0: map<int, Instruction>, n: int, inst: Instruction)
    requires 0 <= n && IsKeyRange(p0.Keys, n)
    ensures IsKeyRange(p0[n + 1 := inst].Keys, n + 1)
    ensures LinesOf(p0[n + 1 := inst], n + 1) == LinesOf(p0, n) + [inst]
  {
    var after := LinesOf(p0[n + 1 := inst], n + 1);
    LinesOfIndex(p0, n);
    LinesOfIndex(p0[n + 1 := inst], n + 1);
    assert forall i :: 0 <= i < n ==> after[i] == LinesOf(p0, n)[i];
  }

  /** The lines after line `lineNum` is removed and the later ones move up (blub.py:240-251). */
  function DeleteLine(lines: seq<Instruction>, lineNum: int): (r: seq<Instruction>)
    requires 1 <= lineNum <= |lines|
    ensures |r| == |lines| - 1
    ensures forall i :: 0 <= i < lineNum - 1 ==> r[i] == lines[i]
    ensures forall i :: lineNum - 1 <= i < |r| ==> r[i] == lines[i + 1]
  {
    lines[..lineNum - 1] + lines[lineNum..]
  }

  /** The index after a deletion (blub.py:254-255): the entry for the deleted line goes,
      later entries move up by one. */
  function RelabelAfterDelete(labels: map<string, int>, lineNum: int): (r: map<string, int>)
    ensures forall name :: name in r <==> name in labels && labels[name] != lineNum
    ensures forall name :: name in r ==> r[name] == if labels[name] > lineNum then labels[name] - 1 else labels[name]
  {
    map name | name in labels && labels[name] != lineNum :: if labels[name] >= lineNum then labels[name] - 1 else labels[name]
  }

  /** Deletion keeps every index entry pointing at a line with that label. */
  lemma DeleteKeepsConsistent(lines: seq<Instruction>, labels: map<string, int>, lineNum: int)
    requires 1 <= lineNum <= |lines|
    requires Consistent(lines, labels)
    ensures Consistent(DeleteLine(lines, lineNum), RelabelAfterDelete(labels, lineNum))
  {
    var r := DeleteLine(lines, lineNum);
    var index := RelabelAfterDelete(labels, lineNum);
    forall name | name in index
      ensures name != "" && 1 <= index[name] <= |r| && r[index[name] - 1].labelName == name
    {
      var k := labels[name];
      if k > lineNum {
        assert r[k - 2] == lines[k - 1];
      } else {
        assert r[k - 1] == lines[k - 1];
      }
    }
  }

  /** Deletion keeps every label indexed when the deleted line is unlabelled or no other
      line shares its label. */
  lemma DeleteKeepsComplete(lines: seq<Instruction>, labels: map<string, int>, lineNum: int)
    requires 1 <= lineNum <= |lines|
    requires Consistent(lines, labels) && Complete(lines, labels)
    requires lines[lineNum - 1].labelName != "" ==>
               forall i :: 0 <= i < |lines| && i != lineNum - 1 ==> lines[i].labelName != lines[lineNum - 1].labelName
    ensures Complete(DeleteLine(lines, lineNum), RelabelAfterDelete(labels, lineNum))
  {
    var r := DeleteLine(lines, lineNum);
    var index := RelabelAfterDelete(labels, lineNum);
    forall i | 0 <= i < |r| && r[i].labelName != ""
      ensures r[i].labelName in index
    {
      var j := if i < lineNum - 1 then i else i + 1;
      assert r[i] == lines[j];
      var name := lines[j].labelName;
      assert name in labels;
      assert lines[labels[name] - 1].labelName == name;
    }
  }

  /** Midway through the upward shift of `__delitem__` (blub.py:243-245): line `lineNum`
      is gone until the first pass refills it, and lines `lineNum..num-1` hold their
      successor's old entry. */
  ghost predicate ShiftedUp(program: map<int, Instruction>, p0: map<int, Instruction>, lineNum: int, n: int, num: int) {
    && 1 <= lineNum <= num <= n && IsKeyRange(p0.Keys, n)
    && (forall k :: k in program <==> 1 <= k <= n && (k != lineNum || num > lineNum))
    && (forall k {:trigger program[k]} :: k in program ==>
          program[k] == if lineNum <= k < num then p0[k + 1] else p0[k])
  }

  /** Removing line `lineNum` starts the shift. */
  lemma ShiftUpFirst(p0: map<int, Instruction>, lineNum: int, n: int)
    requires 1 <= lineNum <= n && IsKeyRange(p0.Keys, n)
    ensures ShiftedUp(p0 - {lineNum}, p0, lineNum, n, lineNum)
  {
  }

  /** The pass at `num` copies line `num + 1` up to line `num`. */
  lemma ShiftUpNext(program: map<int, Instruction>, p0: map<int, Instruction>, lineNum: int, n: int, num: int)
    requires num < n && ShiftedUp(program, p0, lineNum, n, num)
    ensures num + 1 in program
    ensures ShiftedUp(program[num := program[num + 1]], p0, lineNum, n, num + 1)
  {
    var next := program[num := program[num + 1]];
    assert program[num + 1] == p0[num + 1];
    forall k | k in next
      ensures next[k] == if lineNum <= k < num + 1 then p0[k + 1] else p0[k]
    {
      if k != num {
        assert next[k] == program[k];
      }
    }
  }

  /** After the shift, dropping line n (a duplicate, or already gone when line n was the one
      deleted) leaves lines 1..n-1 holding `DeleteLine`. */
  lemma ShiftUpDone(program: map<int, Instruction>, p0: map<int, Instruction>, lineNum: int, n: int)
    requires ShiftedUp(program, p0, lineNum, n, n)
    ensures n in program <==> lineNum < n
    ensures IsKeyRange((program - {n}).Keys, n - 1)
    ensures LinesOf(program - {n}, n - 1) == DeleteLine(LinesOf(p0, n), lineNum)
  {
    var after := LinesOf(program - {n}, n - 1);
    var expected := DeleteLine(LinesOf(p0, n), lineNum);
    LinesOfIndex(p0, n);
    LinesOfIndex(program - {n}, n - 1);
    forall i | 0 <= i < n - 1
      ensures after[i] == expected[i]
    {
      assert after[i] == program[i + 1];
    }
  }

  /** A parsed program (blub.py:68-255): `program` holds lines 1..aKey-1, `labelLocator`
      maps labels to line numbers. */
  class Program {
    var program: map<int, Instruction>
    var aKey: int
    var labelLocator: map<string, int>

    /** The line numbers in use are exactly 1..aKey-1. */
    ghost predicate KeysContiguous()
      reads this
    {
      aKey >= 1 && IsKeyRange(program.Keys, aKey - 1)
    }

    /** The store's invariant: contiguous lines and a label index that points at them. */
    ghost predicate Valid()
      reads this
    {
      KeysContiguous() && Consistent(Lines(), labelLocator)
    }

    /** The lines, in order. */
    ghost function Lines(): seq<Instruction>
      reads this
      requires KeysContiguous()
    {
      LinesOf(program, aKey - 1)
    }

    /** The empty store a construction starts from (blub.py:87-90). */
    constructor Empty()
      ensures Valid() && Lines() == [] && aKey == 1 && labelLocator == map[]
    {
      program := map[];
      aKey := 1;
      labelLocator := map[];
    }

    /** `Program(file)` on the file's lines (blub.py:74-136): every line parsed in
        order into lines 1..n, or the first malformed line's error. */
    static method Load(lines: seq<string>) returns (r: Result<Program, ParseError>)
      ensures r.Ok? <==> forall i :: 0 <= i < |lines| ==> ParseLine(lines[i]).Ok?
      ensures r.Ok? ==> fresh(r.value) && r.value.Valid() && r.value.aKey == |lines| + 1
      ensures r.Ok? ==> |r.value.Lines()| == |lines|
                        && forall i :: 0 <= i < |lines| ==> ParseLine(lines[i]) == Ok(r.value.Lines()[i])
      ensures r.Ok? ==> r.value.labelLocator == LabelIndex(r.value.Lines())
    {
      var program: map<int, Instruction> := map[];
      var aKey := 1;
      var i := 0;
      while i < |lines|
        invariant 0 <= i <= |lines|
        invariant aKey == i + 1 && IsKeyRange(program.Keys, i)
        invariant forall j :: 0 <= j < i ==> ParseLine(lines[j]) == Ok(program[j + 1])
      {
        var parsed := ParseLine(lines[i]);
        if parsed.Err? {
          return Err(parsed.error);
        }
        ExtendKeyRange(program, i, parsed.value);
        program := program[aKey := parsed.value];
        aKey := aKey + 1;
        i := i + 1;
      }
      var p := new Program.Empty();
      p.program := program;
      p.aKey := aKey;
      var all := LinesOf(p.program, p.aKey - 1);
      LinesOfIndex(p.program, p.aKey - 1);
      p.labelLocator := LabelIndex(all);
      LabelIndexSound(all);
      assert p.Lines() == all;
      return Ok(p);
    }

    /** `program[lineNum]` (blub.py:159-166). */
    function Get(lineNum: int): (r: Result<Instruction, StoreError>)
      reads this
      ensures r.Ok? <==> lineNum in program
      ensures KeysContiguous() ==> (r.Ok? <==> 1 <= lineNum <= |Lines()|)
      ensures KeysContiguous() && r.Ok? ==> r.value == Lines()[lineNum - 1]
    {
      assert KeysContiguous() ==> forall i :: 0 <= i < aKey - 1 ==> Lines()[i] == program[i + 1] by {
        if KeysContiguous() {
          LinesOfIndex(program, aKey - 1);
        }
      }
      if lineNum in program then Ok(program[lineNum]) else Err(KeyError)
    }

    /** `getAddress(label)` (blub.py:170-177): the line a label names. */
    function GetAddress(name: string): (r: Result<int, StoreError>)
      reads this
      ensures r.Ok? <==> name in labelLocator
      ensures Valid() && r.Ok? ==> 1 <= r.value <= |Lines()| && Lines()[r.value - 1].labelName == name
    {
      if name in labelLocator then Ok(labelLocator[name]) else Err(KeyError)
    }

    /** `len(program)` (blub.py:181-187). */
    function Length(): (n: nat)
      reads this
      ensures KeysContiguous() ==> n == |Lines()| && n == aKey - 1
    {
      assert KeysContiguous() ==> |program| == aKey - 1 by {
        if KeysContiguous() {
          KeyRangeSize(program.Keys, aKey - 1);
        }
      }
      |program|
    }

    /** The loop of `__setitem__` (blub.py:202-205) for `lineNum <= n`: it copies lines
        n, n-1, ... one down, the first pass writing line n+1 twice since the loop reads
        the store's length as it grows. From `lineNum >= 1` it stops after copying line
        lineNum, which is then duplicated. Below 1 it goes on to read the missing line 0
        and raises KeyError, with line 1 duplicated or, on an empty store, nothing done. */
    method ShiftDown(lineNum: int) returns (r: Outcome<StoreError>)
      requires KeysContiguous() && lineNum <= aKey - 1
      modifies this
      ensures aKey == old(aKey) && labelLocator == old(labelLocator)
      ensures r.Pass? <==> lineNum >= 1
      ensures r.Fail? ==> r.error == KeyError
      ensures old(aKey) == 1 ==> program == old(program)
      ensures old(aKey) > 1 ==>
                (IsKeyRange(program.Keys, aKey)
                 && LinesOf(program, aKey) == Duplicated(old(Lines()), if lineNum >= 1 then lineNum else 1))
    {
      ghost var p0 := program;
      ghost var n := aKey - 1;
      var num := lineNum - 1;
      while num < aKey
        invariant lineNum - 1 <= num <= aKey && aKey == n + 1
        invariant num == lineNum - 1 ==> program == p0
        invariant num >= lineNum ==> ShiftedDown(program, p0, lineNum, n, num)
        invariant labelLocator == old(labelLocator)
      {
        var size := |program|;
        ShiftSource(program, p0, lineNum, n, num);
        if (lineNum - 1) + size - num !in program {
          if num >= lineNum {
            ShiftDone(program, p0, lineNum, n, num);
          }
          return Fail(KeyError);
        }
        ShiftStep(program, p0, lineNum, n, num);
        program := program[(lineNum - 1) + size - (num - 1) := program[(lineNum - 1) + size - num]];
        num := num + 1;
      }
      ShiftDone(program, p0, lineNum, n, num);
      return Pass;
    }

    /** The loop of `__delitem__` (blub.py:243-245), after line `lineNum` is removed and `aKey`
        decremented: it copies lines lineNum+1..aKey one up. */
    method ShiftUp(ghost p0: map<int, Instruction>, lineNum: int)
      requires ShiftedUp(program, p0, lineNum, aKey, lineNum)
      modifies this
      ensures aKey == old(aKey) && labelLocator == old(labelLocator)
      ensures aKey in program <==> lineNum < aKey
      ensures IsKeyRange((program - {aKey}).Keys, aKey - 1)
      ensures LinesOf(program - {aKey}, aKey - 1) == DeleteLine(LinesOf(p0, aKey), lineNum)
    {
      var num := lineNum;
      while num < aKey
        invariant lineNum <= num <= aKey
        invariant ShiftedUp(program, p0, lineNum, aKey, num)
        invariant aKey == old(aKey) && labelLocator == old(labelLocator)
      {
        ShiftUpNext(program, p0, lineNum, aKey, num);
        program := program[num := program[num + 1]];
        num := num + 1;
      }
      ShiftUpDone(program, p0, lineNum, aKey);
    }

    /** `program[lineNum] = inst` (blub.py:191-228). */
    method Insert(lineNum: int, inst: Instruction) returns (r: Outcome<StoreError>)
      requires KeysContiguous()
      modifies this
      ensures r.Pass? <==> lineNum >= 1
      ensures r.Fail? ==> r.error == KeyError && aKey == old(aKey) && labelLocator == old(labelLocator)
      ensures r.Fail? && old(aKey) == 1 ==> program == old(program)
      ensures r.Fail? && old(aKey) > 1 ==>
                (IsKeyRange(program.Keys, aKey) && LinesOf(program, aKey) == Duplicated(old(Lines()), 1))
      ensures r.Pass? ==> KeysContiguous() && aKey == old(aKey) + 1
      ensures r.Pass? && old(Valid()) ==> Valid()
      ensures r.Pass? ==> Lines() == InsertLine(old(Lines()), lineNum, inst)
      ensures r.Pass? ==> labelLocator == RelabelAfterInsert(old(labelLocator), lineNum, old(|Lines()|), inst)
    {
      if lineNum <= Length() {
        r := InsertWithin(lineNum, inst);
      } else {
        Append(inst);
        r := Pass;
      }
    }

    /** The first branch of `__setitem__` (blub.py:198-215, 228): shift lines lineNum..n down,
        write the new line at lineNum and renumber the index; a shift that raises stops
        there. */
    method InsertWithin(lineNum: int, inst: Instruction) returns (r: Outcome<StoreError>)
      requires KeysContiguous() && lineNum <= aKey - 1
      modifies this
      ensures r.Pass? <==> lineNum >= 1
      ensures r.Fail? ==> r.error == KeyError && aKey == old(aKey) && labelLocator == old(labelLocator)
      ensures r.Fail? && old(aKey) == 1 ==> program == old(program)
      ensures r.Fail? && old(aKey) > 1 ==>
                (IsKeyRange(program.Keys, aKey) && LinesOf(program, aKey) == Duplicated(old(Lines()), 1))
      ensures r.Pass? ==> KeysContiguous() && aKey == old(aKey) + 1
      ensures r.Pass? && old(Valid()) ==> Valid()
      ensures r.Pass? ==> Lines() == InsertLine(old(Lines()), lineNum, inst)
      ensures r.Pass? ==> labelLocator == RelabelAfterInsert(old(labelLocator), lineNum, old(|Lines()|), inst)
    {
      ghost var before := Lines();
      ghost var n := aKey - 1;
      assert |before| == n;
      r := ShiftDown(lineNum);
      if r.Fail? {
        return;
      }
      ghost var relabelled := RelabelAfterInsert(labelLocator, lineNum, n, inst);
      WriteShifted(program, before, lineNum, inst);
      program := program[lineNum := inst];
      labelLocator := ShiftLabels(labelLocator, lineNum);
      if inst.labelName != "" {
        labelLocator := labelLocator[inst.labelName := lineNum];
      }
      assert labelLocator == relabelled;
      aKey := aKey + 1;
      assert IsKeyRange(program.Keys, aKey - 1);
      assert Lines() == InsertLine(before, lineNum, inst);
      if old(Valid()) {
        InsertKeepsConsistent(before, old(labelLocator), lineNum, inst);
      }
    }

    /** The second branch of `__setitem__` (blub.py:217-228): the line goes at `aKey`. */
    method Append(inst: Instruction)
      requires KeysContiguous()
      modifies this
      ensures KeysContiguous() && aKey == old(aKey) + 1
      ensures old(Valid()) ==> Valid()
      ensures Lines() == old(Lines()) + [inst]
      ensures labelLocator == RelabelAfterInsert(old(labelLocator), old(aKey), old(|Lines()|), inst)
    {
      ghost var before := Lines();
      AppendKeepsRange(program, aKey - 1, inst);
      program := program[aKey := inst];
      if inst.labelName != "" {
        labelLocator := labelLocator[inst.labelName := aKey];
      }
      aKey := aKey + 1;
      assert Lines() == InsertLine(before, aKey - 1, inst);
      if old(Valid()) {
        InsertKeepsConsistent(before, old(labelLocator), aKey - 1, inst);
      }
    }

    /** `del program[lineNum]` (blub.py:232-255). Deleting line n (the last) removes it and
        then fails at the second `del`, leaving the index as it was. */
    method Delete(lineNum: int) returns (r: Outcome<StoreError>)
      requires KeysContiguous()
      modifies this
      ensures r.Pass? <==> 1 <= lineNum < old(|Lines()|)
      ensures r.Fail? ==> r.error == KeyError
      ensures !(1 <= lineNum <= old(|Lines()|)) ==> unchanged(this)
      ensures 1 <= lineNum == old(|Lines()|) ==>
        && KeysContiguous() && aKey == old(aKey) - 1
        && Lines() == old(Lines())[..lineNum - 1] && labelLocator == old(labelLocator)
      ensures r.Pass? ==> KeysContiguous() && aKey == old(aKey) - 1
      ensures r.Pass? && old(Valid()) ==> Valid()
      ensures r.Pass? ==> Lines() == DeleteLine(old(Lines()), lineNum)
      ensures r.Pass? ==> labelLocator == RelabelAfterDelete(old(labelLocator), lineNum)
    {
      if lineNum !in program {
        return Fail(KeyError);
      }
      ghost var before := Lines();
      ghost var p0 := program;
      ghost var n := aKey - 1;
      ShiftUpFirst(p0, lineNum, n);
      program := program - {lineNum};
      aKey := aKey - 1;
      ShiftUp(p0, lineNum);
      if aKey !in program {
        assert program - {aKey} == program;
        assert Lines() == DeleteLine(before, lineNum);
        return Fail(KeyError);
      }
      program := program - {aKey};
      labelLocator := RelabelAfterDelete(labelLocator, lineNum);
      assert Lines() == DeleteLine(before, lineNum);
      if old(Valid()) {
        DeleteKeepsConsistent(before, old(labelLocator), lineNum);
      }
      return Pass;
    }
  }
}
